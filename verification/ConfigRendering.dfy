/** The Configs that loading can produce, and a file for each of them. */
module ConfigRendering {
  import opened Wrappers
  import opened Numerals
  import opened ConfigText
  import opened Config
  import opened ConfigLaws
  import opened ConfigValues
  import Poller

  /** The strings that can stand as the value of a directive. */
  predicate Clean(s: string) {
    Trimmed(s) && '\n' !in s
  }

  /** cfg is well formed, its poll interval being so many seconds: exactly one backend's fields are set, and a notify
      target comes with a type. */
  predicate ValidFor(cfg: Config, seconds: int) {
    && cfg.cloudProvider == "aws"
    && 0 < seconds <= INT64_MAX && cfg.pollInterval == Interval(seconds)
    && Clean(cfg.auditLogPath) && Clean(cfg.checkpointBaseDir) && Clean(cfg.socketGroup) && Clean(cfg.notifyTargetARN)
    && Clean(cfg.dbPath) && Clean(cfg.dbHost) && Clean(cfg.dbUser) && Clean(cfg.dbPassword) && Clean(cfg.dbName)
    && 0 <= cfg.maxConcurrentCheckpoints <= INT64_MAX
    && OneBackend(cfg)
    && NotifyBothOrNone(cfg)
  }

  predicate OneBackend(cfg: Config) {
    || (cfg.dbType == "sqlite" && cfg.dbHost == "" && cfg.dbPort == 0 && cfg.dbUser == "" && cfg.dbPassword == ""
        && cfg.dbName == "")
    || (cfg.dbType == "mysql" && cfg.dbPath == "" && 0 < cfg.dbPort <= INT64_MAX)
  }

  predicate NotifyBothOrNone(cfg: Config) {
    || (cfg.notifyTargetType == "" && cfg.notifyTargetARN == "")
    || cfg.notifyTargetType == "lambda"
    || cfg.notifyTargetType == "stepfunction"
  }

  /** The value a canonical file gives a directive, if it mentions it. */
  function Setting(cfg: Config, seconds: int, k: Key): Option<string> {
    var mysql := cfg.dbType == "mysql";
    match k
    case CloudProvider => Some(cfg.cloudProvider)
    case PollIntervalSeconds => Some(FormatInt(seconds))
    case AuditLogPath => Some(cfg.auditLogPath)
    case CheckpointBaseDir => Some(cfg.checkpointBaseDir)
    case MaxConcurrentCheckpoints =>
      if cfg.maxConcurrentCheckpoints == 0 then None else Some(FormatInt(cfg.maxConcurrentCheckpoints))
    case SocketGroup => Some(cfg.socketGroup)
    case NotifyTargetType => if cfg.notifyTargetType == "" then None else Some(cfg.notifyTargetType)
    case NotifyTargetARN => if cfg.notifyTargetType == "" then None else Some(cfg.notifyTargetARN)
    case DBType => Some(cfg.dbType)
    case DBPath => if mysql then None else Some(cfg.dbPath)
    case DBHost => if mysql then Some(cfg.dbHost) else None
    case DBPort => if mysql then Some(FormatInt(cfg.dbPort)) else None
    case DBUser => if mysql then Some(cfg.dbUser) else None
    case DBPassword => if mysql then Some(cfg.dbPassword) else None
    case DBName => if mysql then Some(cfg.dbName) else None
  }

  const ALL_KEYS: seq<Key> := [
    CloudProvider, PollIntervalSeconds, AuditLogPath, CheckpointBaseDir, DBPath, MaxConcurrentCheckpoints,
    DBType, DBHost, DBPort, DBUser, DBPassword, DBName, NotifyTargetType, NotifyTargetARN, SocketGroup]

  /** One line for each of the keys that has a value, in that order. */
  function RenderKeys(raw: Directives, keys: seq<Key>): seq<string> {
    if keys == [] then []
    else
      var k := keys[|keys| - 1];
      RenderKeys(raw, keys[..|keys| - 1]) + if k in raw then [Name(k) + "=" + raw[k]] else []
  }

  /** Every line, ended by a newline. */
  function Unlines(lines: seq<string>): string {
    if lines == [] then "" else lines[0] + "\n" + Unlines(lines[1..])
  }

  function Settings(cfg: Config, seconds: int): Directives {
    map k <- ALL_KEYS | Setting(cfg, seconds, k).Some? :: Setting(cfg, seconds, k).value
  }

  function Render(cfg: Config, seconds: int): string {
    Unlines(RenderKeys(Settings(cfg, seconds), ALL_KEYS))
  }

  // ---------------------------------------------------------------- text and lines

  predicate OneLine(s: string) {
    '\n' !in s && (s != "" ==> s[|s| - 1] != '\r')
  }

  lemma {:induction false} ScanLine(done: string, line: string, rest: string)
    requires '\n' !in line
    ensures ScanFrom(done, line + "\n" + rest) == [DropReturn(done + line)] + ScanFrom("", rest)
    decreases |line|
  {
    var text := line + "\n" + rest;
    if line == "" {
      assert text[1..] == rest;
      assert done + line == done;
    } else {
      assert text[1..] == line[1..] + "\n" + rest;
      assert done + [line[0]] + line[1..] == done + line;
      ScanLine(done + [line[0]], line[1..], rest);
    }
  }

  lemma {:induction false} ScanUnlines(lines: seq<string>)
    requires forall x :: x in lines ==> OneLine(x)
    ensures Scan(Unlines(lines)) == lines
  {
    if lines == [] {
    } else {
      assert OneLine(lines[0]);
      ScanLine("", lines[0], Unlines(lines[1..]));
      assert "" + lines[0] == lines[0];
      ScanUnlines(lines[1..]);
    }
  }

  /** Every line, ended as on other systems. */
  function UnlinesReturned(lines: seq<string>): string {
    if lines == [] then "" else lines[0] + "\r\n" + UnlinesReturned(lines[1..])
  }

  /** A carriage return in front of a newline is no part of the line. */
  lemma {:induction false} ReturnsDropped(lines: seq<string>)
    requires forall x :: x in lines ==> OneLine(x)
    ensures Scan(UnlinesReturned(lines)) == lines
  {
    if lines == [] {
    } else {
      var line, rest := lines[0] + "\r", UnlinesReturned(lines[1..]);
      assert OneLine(lines[0]) && UnlinesReturned(lines) == line + "\n" + rest;
      ScanLine("", line, rest);
      assert "" + line == line && line[..|line| - 1] == lines[0];
      ReturnsDropped(lines[1..]);
    }
  }

  lemma {:induction false} ScanTail(done: string, line: string)
    requires '\n' !in line && done + line != ""
    ensures ScanFrom(done, line) == [DropReturn(done + line)]
    decreases |line|
  {
    if line == "" {
      assert done + line == done;
    } else {
      assert done + [line[0]] + line[1..] == done + line;
      ScanTail(done + [line[0]], line[1..]);
    }
  }

  /** The last line of a file counts whether or not a newline ends it. */
  lemma {:induction false} LastLineUnended(lines: seq<string>, last: string)
    requires (forall x :: x in lines ==> OneLine(x)) && OneLine(last) && last != ""
    ensures Scan(Unlines(lines) + last) == lines + [last] == Scan(Unlines(lines + [last]))
  {
    ScanUnlines(lines + [last]);
    if lines == [] {
      ScanTail("", last);
      assert "" + last == last && Unlines([]) + last == last;
    } else {
      assert OneLine(lines[0]);
      var rest := Unlines(lines[1..]) + last;
      assert Unlines(lines) + last == lines[0] + "\n" + rest;
      ScanLine("", lines[0], rest);
      assert "" + lines[0] == lines[0];
      LastLineUnended(lines[1..], last);
      assert lines + [last] == [lines[0]] + (lines[1..] + [last]);
    }
  }

  lemma {:induction false} ScannedLinesHaveNoNewline(line: string, text: string)
    requires '\n' !in line
    ensures forall x :: x in ScanFrom(line, text) ==> '\n' !in x
    decreases |text|
  {
    if text == "" {
    } else {
      if text[0] == '\n' {
        ScannedLinesHaveNoNewline("", text[1..]);
      } else {
        ScannedLinesHaveNoNewline(line + [text[0]], text[1..]);
      }
    }
  }

  // ---------------------------------------------------------------- a file for every valid Config

  lemma NumeralIsClean(n: nat)
    ensures Clean(FormatInt(n)) && (IsInt64(n) && n > 0 ==> Positive(FormatInt(n)) == Some(n))
  {
    var s := FormatInt(n);
    assert forall c :: c in s ==> IsDigit(c);
    assert IsDigit(s[0]) && IsDigit(s[|s| - 1]);
    if IsInt64(n) {
      ParseFormat(n);
    }
  }

  /** The names that stand for themselves. */
  lemma Word(s: string)
    requires s == "aws" || s == "sqlite" || s == "mysql" || s == "lambda" || s == "stepfunction"
    ensures Clean(s) && Lower(s) == s
  {
    assert forall i :: 0 <= i < |s| ==> 'a' <= s[i] <= 'z';
    WordLike(s);
  }

  lemma WordLike(s: string)
    requires forall i :: 0 <= i < |s| ==> 'a' <= s[i] <= 'z'
    ensures Clean(s) && Lower(s) == s
  {
  }

  lemma SettingIsClean(cfg: Config, seconds: int, k: Key)
    requires ValidFor(cfg, seconds) && Setting(cfg, seconds, k).Some?
    ensures Clean(Setting(cfg, seconds, k).value)
  {
    match k
    case CloudProvider => Word(cfg.cloudProvider);
    case DBType => Word(cfg.dbType);
    case NotifyTargetType => Word(cfg.notifyTargetType);
    case PollIntervalSeconds => NumeralIsClean(seconds);
    case MaxConcurrentCheckpoints => NumeralIsClean(cfg.maxConcurrentCheckpoints);
    case DBPort => NumeralIsClean(cfg.dbPort);
    case _ =>
  }

  lemma SettingLine(k: Key, v: string)
    requires Clean(v)
    ensures ParseLine(Name(k) + "=" + v) == Directive(k, v) && OneLine(Name(k) + "=" + v)
  {
    CanonicalLine(k, v);
    CleanIsTrimmed(v);
    NameLetters(k);
    SettingIsOneLine(Name(k), v);
  }

  lemma CleanIsTrimmed(v: string)
    requires Clean(v)
    ensures TrimSpace(v) == v
  {
    TrimUnique("", v, "");
    assert "" + v + "" == v;
  }

  lemma SettingIsOneLine(name: string, v: string)
    requires Clean(v) && Letters(name)
    ensures OneLine(name + "=" + v)
  {
  }

  lemma {:induction false} RenderedLines(raw: Directives, keys: seq<Key>)
    requires forall k :: k in raw ==> Clean(raw[k])
    ensures forall x :: x in RenderKeys(raw, keys) ==> OneLine(x)
  {
    if keys == [] {
    } else {
      var k := keys[|keys| - 1];
      RenderedLines(raw, keys[..|keys| - 1]);
      if k in raw {
        SettingLine(k, raw[k]);
      }
    }
  }

  function Restrict(raw: Directives, keys: seq<Key>): Directives {
    map k | k in raw && k in keys :: raw[k]
  }

  lemma RestrictSnoc(raw: Directives, keys: seq<Key>, k: Key)
    ensures k in raw ==> Restrict(raw, keys + [k]) == Restrict(raw, keys)[k := raw[k]]
    ensures k !in raw ==> Restrict(raw, keys + [k]) == Restrict(raw, keys)
  {
  }

  lemma RenderSnoc(raw: Directives, keys: seq<Key>, k: Key)
    ensures k in raw ==> RenderKeys(raw, keys + [k]) == RenderKeys(raw, keys) + [Name(k) + "=" + raw[k]]
    ensures k !in raw ==> RenderKeys(raw, keys + [k]) == RenderKeys(raw, keys)
  {
    assert (keys + [k])[..|keys|] == keys;
  }

  /** The directives of the rendered lines are those of the rendered keys. */
  lemma {:induction false} RenderedDirectives(raw: Directives, keys: seq<Key>)
    requires forall k :: k in raw ==> Clean(raw[k])
    ensures Raw(RenderKeys(raw, keys)) == Ok(Restrict(raw, keys))
  {
    if keys == [] {
    } else {
      var front, k := keys[..|keys| - 1], keys[|keys| - 1];
      assert keys == front + [k];
      RenderedDirectives(raw, front);
      RestrictSnoc(raw, front, k);
      RenderSnoc(raw, front, k);
      if k in raw {
        OneLineMore(RenderKeys(raw, front), k, raw[k]);
      }
    }
  }

  lemma OneLineMore(lines: seq<string>, k: Key, v: string)
    requires Raw(lines).Ok? && Clean(v)
    ensures Raw(lines + [Name(k) + "=" + v]) == Ok(Raw(lines).value[k := v])
  {
    var line := Name(k) + "=" + v;
    SettingLine(k, v);
    ReadingsAppend(lines, [line]);
    assert Readings([line]) == [Directive(k, v)];
    FoldSnoc(Readings(lines), Directive(k, v));
  }

  function Lookup(raw: Directives, k: Key): Option<string> {
    if k in raw then Some(raw[k]) else None
  }

  lemma AllKeys(k: Key)
    ensures k in ALL_KEYS
  {
    var i :=
      match k
      case CloudProvider => 0 case PollIntervalSeconds => 1 case AuditLogPath => 2 case CheckpointBaseDir => 3
      case DBPath => 4 case MaxConcurrentCheckpoints => 5 case DBType => 6 case DBHost => 7 case DBPort => 8
      case DBUser => 9 case DBPassword => 10 case DBName => 11 case NotifyTargetType => 12
      case NotifyTargetARN => 13 case SocketGroup => 14;
    assert ALL_KEYS[i] == k;
  }

  ghost predicate Settles(raw: Directives, cfg: Config, seconds: int) {
    forall k :: Lookup(raw, k) == Setting(cfg, seconds, k)
  }

  lemma HostSettings(cfg: Config, seconds: int, raw: Directives)
    requires ValidFor(cfg, seconds) && Settles(raw, cfg, seconds)
    ensures CloudProvider in raw && Lower(raw[CloudProvider]) == cfg.cloudProvider
    ensures PollIntervalSeconds in raw && Positive(raw[PollIntervalSeconds]) == Some(seconds)
    ensures AuditLogPath in raw && raw[AuditLogPath] == cfg.auditLogPath
    ensures CheckpointBaseDir in raw && raw[CheckpointBaseDir] == cfg.checkpointBaseDir
    ensures SocketGroup in raw && raw[SocketGroup] == cfg.socketGroup
  {
    assert Lookup(raw, CloudProvider) == Some(cfg.cloudProvider);
    assert Lookup(raw, PollIntervalSeconds) == Some(FormatInt(seconds));
    assert Lookup(raw, AuditLogPath) == Some(cfg.auditLogPath);
    assert Lookup(raw, CheckpointBaseDir) == Some(cfg.checkpointBaseDir);
    assert Lookup(raw, SocketGroup) == Some(cfg.socketGroup);
    Word(cfg.cloudProvider);
    NumeralIsClean(seconds);
  }

  lemma LimitSettings(cfg: Config, seconds: int, raw: Directives)
    requires ValidFor(cfg, seconds) && Settles(raw, cfg, seconds)
    ensures Number(raw, MaxConcurrentCheckpoints) == cfg.maxConcurrentCheckpoints
    ensures MaxConcurrentCheckpoints in raw ==> Positive(raw[MaxConcurrentCheckpoints]).Some?
  {
    assert Lookup(raw, MaxConcurrentCheckpoints) == Setting(cfg, seconds, MaxConcurrentCheckpoints);
    NumeralIsClean(cfg.maxConcurrentCheckpoints);
  }

  lemma NotifySettings(cfg: Config, seconds: int, raw: Directives)
    requires ValidFor(cfg, seconds) && Settles(raw, cfg, seconds)
    ensures NotifyTargetType in raw <==> NotifyTargetARN in raw
    ensures NotifyTargetType in raw ==> Admissible(NotifyTargetType, raw[NotifyTargetType])
    ensures Lower(Get(raw, NotifyTargetType)) == cfg.notifyTargetType && Get(raw, NotifyTargetARN) == cfg.notifyTargetARN
  {
    assert Lookup(raw, NotifyTargetType) == Setting(cfg, seconds, NotifyTargetType);
    assert Lookup(raw, NotifyTargetARN) == Setting(cfg, seconds, NotifyTargetARN);
    if cfg.notifyTargetType != "" {
      Word(cfg.notifyTargetType);
    }
  }

  lemma BackendSettings(cfg: Config, seconds: int, raw: Directives)
    requires ValidFor(cfg, seconds) && Settles(raw, cfg, seconds)
    ensures Backend(raw) == cfg.dbType && Admissible(DBType, Get(raw, DBType))
    ensures cfg.dbType != "mysql" ==> DBPath in raw && raw[DBPath] == cfg.dbPath
  {
    assert Lookup(raw, DBType) == Some(cfg.dbType);
    Word(cfg.dbType);
    assert Lookup(raw, DBPath) == Setting(cfg, seconds, DBPath);
  }

  lemma ServerSettings(cfg: Config, seconds: int, raw: Directives)
    requires Settles(raw, cfg, seconds) && cfg.dbType == "mysql" && 0 < cfg.dbPort <= INT64_MAX
    ensures DBHost in raw && raw[DBHost] == cfg.dbHost
    ensures DBPort in raw && Positive(raw[DBPort]) == Some(cfg.dbPort)
    ensures DBUser in raw && raw[DBUser] == cfg.dbUser
    ensures DBName in raw && raw[DBName] == cfg.dbName
    ensures DBPassword in raw && raw[DBPassword] == cfg.dbPassword
  {
    assert Lookup(raw, DBHost) == Some(cfg.dbHost) && Lookup(raw, DBUser) == Some(cfg.dbUser);
    assert Lookup(raw, DBName) == Some(cfg.dbName) && Lookup(raw, DBPassword) == Some(cfg.dbPassword);
    assert Lookup(raw, DBPort) == Some(FormatInt(cfg.dbPort));
    NumeralIsClean(cfg.dbPort);
  }

  lemma NotBoth(s: string)
    ensures !(s == "sqlite" && s == "mysql")
  {
    assert |"sqlite"| == 6 && |"mysql"| == 5;
  }

  /** Directives that are the settings of a valid Config are accepted, and mean that Config. */
  lemma SettingsMean(cfg: Config, seconds: int, raw: Directives)
    requires ValidFor(cfg, seconds) && Settles(raw, cfg, seconds)
    ensures Acceptable(raw) && Meaning(raw) == cfg
  {
    HostSettings(cfg, seconds, raw);
    LimitSettings(cfg, seconds, raw);
    NotifySettings(cfg, seconds, raw);
    BackendSettings(cfg, seconds, raw);
    NotBoth(cfg.dbType);
    if cfg.dbType == "mysql" {
      ServerSettings(cfg, seconds, raw);
    }
  }

  /** Rendering a valid Config and loading the text gives the Config back. */
  lemma {:induction false} RoundTrip(cfg: Config, seconds: int)
    requires ValidFor(cfg, seconds)
    ensures Loads(Scan(Render(cfg, seconds))) == Some(cfg)
  {
    var raw := Settings(cfg, seconds);
    forall k
      ensures Lookup(raw, k) == Setting(cfg, seconds, k)
      ensures k in raw ==> Clean(raw[k]) && k in ALL_KEYS
    {
      AllKeys(k);
      if Setting(cfg, seconds, k).Some? {
        SettingIsClean(cfg, seconds, k);
      }
    }
    RenderedDirectives(raw, ALL_KEYS);
    assert raw == Restrict(raw, ALL_KEYS);
    RenderedLines(raw, ALL_KEYS);
    ScanUnlines(RenderKeys(raw, ALL_KEYS));
    SettingsMean(cfg, seconds, raw);
  }

  // ---------------------------------------------------------------- only valid Configs are loaded

  lemma ValuesAreClean(text: string, k: Key)
    requires Raw(Scan(text)).Ok?
    ensures Clean(Get(Raw(Scan(text)).value, k))
  {
    var lines := Scan(text);
    if k in Raw(lines).value {
      var i := LastWins(Readings(lines), k);
      ScannedLinesHaveNoNewline("", text);
      assert lines[i] in lines;
      ValueIsTrimmed(lines[i]);
    }
  }

  lemma MeaningHasOneBackend(raw: Directives)
    requires Acceptable(raw)
    ensures OneBackend(Meaning(raw))
  {
    NotBoth(Backend(raw));
    assert Consulted(raw, DBType) ==> Admissible(DBType, raw[DBType]);
    assert Backend(raw) == "mysql" ==> Needs(raw, DBPort) && Consulted(raw, DBPort);
  }

  lemma MeaningNotifies(raw: Directives)
    requires Acceptable(raw)
    ensures NotifyBothOrNone(Meaning(raw))
    ensures Meaning(raw).notifyTargetType != "" <==> NotifyTargetType in raw && NotifyTargetARN in raw
  {
    NotifyIsPaired(raw);
    var target := Get(raw, NotifyTargetType);
    assert |Lower(target)| == |target|;
    assert NotifyTargetType in raw ==> Consulted(raw, NotifyTargetType);
    assert NotifyTargetType in raw ==> |Lower(target)| == |"lambda"| || |Lower(target)| == |"stepfunction"|;
  }

  lemma NotifyIsPaired(raw: Directives)
    requires Acceptable(raw)
    ensures NotifyTargetType in raw <==> NotifyTargetARN in raw
  {
    assert Needs(raw, NotifyTargetARN) ==> NotifyTargetARN in raw;
    assert Needs(raw, NotifyTargetType) ==> NotifyTargetType in raw;
  }

  lemma MeaningHost(raw: Directives)
    requires Acceptable(raw)
    ensures Meaning(raw).cloudProvider == "aws" && 0 <= Meaning(raw).maxConcurrentCheckpoints <= INT64_MAX
    ensures 0 < Number(raw, PollIntervalSeconds) <= INT64_MAX
  {
    assert Needs(raw, CloudProvider) && Consulted(raw, CloudProvider);
    assert Needs(raw, PollIntervalSeconds) && Consulted(raw, PollIntervalSeconds);
  }

  /** Accepted directives mean a valid Config. */
  lemma MeaningIsValid(raw: Directives)
    requires Acceptable(raw) && forall k :: Clean(Get(raw, k))
    ensures ValidFor(Meaning(raw), Number(raw, PollIntervalSeconds))
  {
    MeaningHost(raw);
    MeaningNotifies(raw);
    MeaningHasOneBackend(raw);
  }

  /** The Configs that some file loads to are exactly the valid ones. */
  lemma {:induction false} LoadableIffValid(cfg: Config)
    ensures (exists text :: Loads(Scan(text)) == Some(cfg)) <==> (exists seconds :: ValidFor(cfg, seconds))
  {
    if text :| Loads(Scan(text)) == Some(cfg) {
      var raw := Raw(Scan(text)).value;
      forall k
        ensures Clean(Get(raw, k))
      {
        ValuesAreClean(text, k);
      }
      MeaningIsValid(raw);
      assert ValidFor(cfg, Number(raw, PollIntervalSeconds));
    }
    if seconds :| ValidFor(cfg, seconds) {
      RoundTrip(cfg, seconds);
    }
  }

  // ---------------------------------------------------------------- the poll interval

  /** The daemon polls at the interval its file asks for exactly when that many nanoseconds fit 64 bits; beyond that the
      product wraps, and the poller may fall back to its five seconds. */
  lemma PollIntervalExact(raw: Directives)
    requires Acceptable(raw)
    ensures var n := ParseInt(raw[PollIntervalSeconds]).value;
            && n > 0
            && (Meaning(raw).pollInterval == n * 1_000_000_000 <==> n <= 9_223_372_036)
            && (Poller.Every(Meaning(raw).pollInterval) == n * 1_000_000_000 <==> n <= 9_223_372_036)
  {
    AcceptedIff(raw);
    MeaningHost(raw);
    IntervalExact(Number(raw, PollIntervalSeconds));
  }

  lemma IntervalExact(n: int)
    requires 0 < n
    ensures Interval(n) == n * SECOND <==> n <= 9_223_372_036
    ensures Poller.Every(Interval(n)) == n * SECOND <==> n <= 9_223_372_036
  {
  }

  /** The Config of a file that gives the required directives, with empty values where it can. */
  function Smallest(seconds: int): Config {
    NO_CONFIG.(cloudProvider := "aws", dbType := "sqlite", pollInterval := Interval(seconds))
  }

  /** Every positive number of seconds is accepted. */
  lemma SmallestLoads(seconds: int)
    requires 0 < seconds <= INT64_MAX
    ensures Loads(Scan(Render(Smallest(seconds), seconds))) == Some(Smallest(seconds))
  {
    assert ValidFor(Smallest(seconds), seconds);
    RoundTrip(Smallest(seconds), seconds);
  }

  /** A file that asks for more seconds than fit, up to twice that many, is accepted; its interval is negative, so the
      daemon polls every five seconds. */
  lemma PollIntervalOverflows(seconds: int)
    requires 9_223_372_036 < seconds <= 18_446_744_073
    ensures Loads(Scan(Render(Smallest(seconds), seconds))) == Some(Smallest(seconds))
    ensures Smallest(seconds).pollInterval < 0 && Poller.Every(Smallest(seconds).pollInterval) == 5 * SECOND
  {
    SmallestLoads(seconds);
    NegativeInterval(seconds);
  }

  lemma NegativeInterval(seconds: int)
    requires 9_223_372_036 < seconds <= 18_446_744_073
    ensures Interval(seconds) < 0
  {
  }
}
