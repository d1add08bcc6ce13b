/** Loading surviva.conf: the fold of its lines into directives, and the checks that turn directives into a Config. */
module Config {
  import opened Wrappers
  import opened Numerals
  import opened ConfigText

  // ---------------------------------------------------------------- lines into directives

  /** bufio.Scanner's lines: split at newlines, one trailing carriage return dropped, no empty last line. */
  function Scan(text: string): seq<string> {
    ScanFrom("", text)
  }

  function ScanFrom(line: string, text: string): seq<string>
    decreases |text|
  {
    if text == "" then if line == "" then [] else [DropReturn(line)]
    else if text[0] == '\n' then [DropReturn(line)] + ScanFrom("", text[1..])
    else ScanFrom(line + [text[0]], text[1..])
  }

  function DropReturn(line: string): string {
    if line != "" && line[|line| - 1] == '\r' then line[..|line| - 1] else line
  }

  function Readings(lines: seq<string>): (r: seq<Line>)
    ensures |r| == |lines| && forall i :: 0 <= i < |r| ==> r[i] == ParseLine(lines[i])
  {
    seq(|lines|, i requires 0 <= i < |lines| => ParseLine(lines[i]))
  }

  type Directives = map<Key, string>

  /** Later directives overwrite earlier ones, and the first faulty line ends the reading. */
  function Fold(readings: seq<Line>): Result<Directives, Fault> {
    if readings == [] then Ok(map[])
    else
      match Fold(readings[..|readings| - 1])
      case Err(fault) => Err(fault)
      case Ok(raw) =>
        match readings[|readings| - 1]
        case Skip => Ok(raw)
        case Directive(k, v) => Ok(raw[k := v])
        case Bad(fault) => Err(fault)
  }

  function Raw(lines: seq<string>): Result<Directives, Fault> {
    Fold(Readings(lines))
  }

  lemma {:induction false} FaultStays(readings: seq<Line>, n: nat)
    requires n <= |readings| && Fold(readings[..n]).Err?
    ensures Fold(readings) == Fold(readings[..n])
  {
    if n < |readings| {
      assert readings[..|readings| - 1][..n] == readings[..n];
      FaultStays(readings[..|readings| - 1], n);
    } else {
      assert readings[..n] == readings;
    }
  }

  lemma FoldSnoc(a: seq<Line>, x: Line)
    ensures Fold(a).Err? ==> Fold(a + [x]) == Fold(a)
    ensures Fold(a).Ok? && x.Skip? ==> Fold(a + [x]) == Fold(a)
    ensures Fold(a).Ok? && x.Bad? ==> Fold(a + [x]) == Err(x.fault)
    ensures Fold(a).Ok? && x.Directive? ==> Fold(a + [x]) == Ok(Fold(a).value[x.key := x.value])
  {
    assert (a + [x])[..|a|] == a;
  }

  /** The loop of Load. */
  method ReadLines(lines: seq<string>) returns (r: Result<Directives, Fault>)
    ensures r == Raw(lines)
  {
    var raw: Directives := map[];
    ghost var all := Readings(lines);
    for i := 0 to |lines|
      invariant Fold(all[..i]) == Ok(raw)
    {
      var reading := ParseLine(lines[i]);
      assert all[..i + 1] == all[..i] + [reading];
      FoldSnoc(all[..i], reading);
      match reading
      case Skip =>
      case Bad(fault) =>
        FaultStays(all, i + 1);
        return Err(fault);
      case Directive(k, v) => raw := raw[k := v];
    }
    assert all[..|lines|] == all;
    return Ok(raw);
  }

  predicate Sets(reading: Line, k: Key) {
    reading.Directive? && reading.key == k
  }

  /** i is the last of the readings that sets k. */
  ghost predicate LastSets(readings: seq<Line>, i: nat, k: Key) {
    i < |readings| && Sets(readings[i], k) && forall j :: i < j < |readings| ==> !Sets(readings[j], k)
  }

  /** Reading fails exactly on a faulty line. */
  lemma {:induction false} FoldFails(readings: seq<Line>)
    ensures Fold(readings).Ok? <==> forall i :: 0 <= i < |readings| ==> !readings[i].Bad?
  {
    if readings == [] {
    } else {
      var front := readings[..|readings| - 1];
      FoldFails(front);
      assert forall i :: 0 <= i < |front| ==> front[i] == readings[i];
    }
  }

  /** A directive is present exactly when some line sets it, and then the last line that sets it wins. */
  lemma {:induction false} LastWins(readings: seq<Line>, k: Key) returns (i: nat)
    requires Fold(readings).Ok?
    ensures k in Fold(readings).value ==> LastSets(readings, i, k) && Fold(readings).value[k] == readings[i].value
    ensures k !in Fold(readings).value ==> forall j :: 0 <= j < |readings| ==> !Sets(readings[j], k)
  {
    i := 0;
    if readings == [] {
    } else {
      var n := |readings| - 1;
      var front := readings[..n];
      assert forall j :: 0 <= j < n ==> front[j] == readings[j];
      if Sets(readings[n], k) {
        i := n;
      } else {
        i := LastWins(front, k);
      }
    }
  }

  // ---------------------------------------------------------------- directives into a Config

  datatype Config = Config(
    cloudProvider: string, pollInterval: int, auditLogPath: string, checkpointBaseDir: string,
    maxConcurrentCheckpoints: int,
    dbType: string, dbPath: string, dbHost: string, dbPort: int, dbUser: string, dbPassword: string, dbName: string,
    notifyTargetType: string, notifyTargetARN: string, socketGroup: string)

  const NO_CONFIG := Config("", 0, "", "", 0, "", "", "", 0, "", "", "", "", "", "")

  const SECOND := 1_000_000_000

  /** A product of two 64-bit integers as the processor keeps it. */
  function Wrap64(n: int): (r: int)
    ensures IsInt64(r)
    ensures exists m :: r == n + m * 0x1_0000_0000_0000_0000
  {
    var m := (n + 0x8000_0000_0000_0000) / 0x1_0000_0000_0000_0000;
    assert n - m * 0x1_0000_0000_0000_0000 == n + (-m) * 0x1_0000_0000_0000_0000;
    n - m * 0x1_0000_0000_0000_0000
  }

  /** The poll interval in nanoseconds, for a number of seconds. */
  function Interval(seconds: int): int {
    Wrap64(seconds * SECOND)
  }

  function Positive(s: string): Option<int> {
    match ParseInt(s)
    case Some(n) => if n > 0 then Some(n) else None
    case None => None
  }

  function Get(raw: Directives, k: Key): string {
    if k in raw then raw[k] else ""
  }

  function Backend(raw: Directives): string {
    if DBType in raw then Lower(raw[DBType]) else "sqlite"
  }

  /** The directives a file must give. */
  predicate Needs(raw: Directives, k: Key) {
    match k
    case CloudProvider | PollIntervalSeconds | AuditLogPath | CheckpointBaseDir => true
    case DBPath => Backend(raw) == "sqlite"
    case DBHost | DBPort | DBUser | DBName => Backend(raw) == "mysql"
    case NotifyTargetType => NotifyTargetARN in raw
    case NotifyTargetARN => NotifyTargetType in raw
    case DBType | DBPassword | MaxConcurrentCheckpoints | SocketGroup => false
  }

  /** The values a directive may take. */
  predicate Admissible(k: Key, v: string) {
    match k
    case CloudProvider => Lower(v) == "aws"
    case PollIntervalSeconds | DBPort | MaxConcurrentCheckpoints => Positive(v).Some?
    case DBType => Lower(v) == "sqlite" || Lower(v) == "mysql"
    case NotifyTargetType => Lower(v) == "lambda" || Lower(v) == "stepfunction"
    case _ => true
  }

  /** The directives whose value is looked at: the port of a database nobody asked for is not. */
  predicate Consulted(raw: Directives, k: Key) {
    k in raw && (k == DBPort ==> Backend(raw) == "mysql")
  }

  /** A file is accepted when it gives what is needed and what is looked at is admissible. */
  ghost predicate Acceptable(raw: Directives) {
    && (forall k :: Needs(raw, k) ==> k in raw)
    && (forall k :: Consulted(raw, k) ==> Admissible(k, raw[k]))
  }

  datatype Complaint = Missing(key: Key) | Unrecognised(key: Key) | NotImplemented(key: Key)

  /** What an error message claims about the file. */
  predicate Justified(raw: Directives, c: Complaint) {
    match c
    case Missing(k) => Needs(raw, k) && k !in raw
    case Unrecognised(k) => Consulted(raw, k) && !Admissible(k, raw[k])
    case NotImplemented(k) => k == CloudProvider && k in raw && Lower(raw[k]) in {"azure", "gcp"}
  }

  /** A complaint is never unfounded. */
  lemma JustifiedMeansUnacceptable(raw: Directives, c: Complaint)
    requires Justified(raw, c)
    ensures !Acceptable(raw)
  {
    if c.NotImplemented? {
      assert "azure"[1] == 'z' && "gcp"[0] == 'g' && "aws"[1] == 'w';
      assert Consulted(raw, CloudProvider) && !Admissible(CloudProvider, raw[CloudProvider]);
    }
  }

  function Number(raw: Directives, k: Key): int {
    match Positive(Get(raw, k))
    case Some(n) => n
    case None => 0
  }

  /** What an accepted file means, field by field. */
  function Meaning(raw: Directives): Config {
    var mysql := Backend(raw) == "mysql";
    Config(
      Lower(Get(raw, CloudProvider)), Interval(Number(raw, PollIntervalSeconds)),
      Get(raw, AuditLogPath), Get(raw, CheckpointBaseDir), Number(raw, MaxConcurrentCheckpoints),
      Backend(raw), if mysql then "" else Get(raw, DBPath),
      if mysql then Get(raw, DBHost) else "", if mysql then Number(raw, DBPort) else 0,
      if mysql then Get(raw, DBUser) else "", if mysql then Get(raw, DBPassword) else "",
      if mysql then Get(raw, DBName) else "",
      Lower(Get(raw, NotifyTargetType)), Get(raw, NotifyTargetARN), Get(raw, SocketGroup))
  }

  method ValidateBackend(raw: Directives, base: Config) returns (r: Result<Config, Complaint>)
    requires base.dbType == Backend(raw) && base.dbType in {"sqlite", "mysql"}
    requires base == base.(dbPath := "", dbHost := "", dbPort := 0, dbUser := "", dbPassword := "", dbName := "")
    ensures r.Err? ==> Justified(raw, r.error)
    ensures r.Ok? ==> (forall k :: Needs(raw, k) && k in {DBPath, DBHost, DBPort, DBUser, DBName} ==> k in raw)
    ensures r.Ok? && base.dbType == "mysql" ==> Positive(Get(raw, DBPort)).Some?
    ensures r.Ok? ==>
      var m := Meaning(raw);
      r.value == base.(dbPath := m.dbPath, dbHost := m.dbHost, dbPort := m.dbPort, dbUser := m.dbUser,
                       dbPassword := m.dbPassword, dbName := m.dbName)
  {
    var cfg := base;
    assert "sqlite" != "mysql" by { assert |"sqlite"| == 6 && |"mysql"| == 5; }
    if cfg.dbType == "sqlite" {
      if DBPath !in raw { return Err(Missing(DBPath)); }
      cfg := cfg.(dbPath := raw[DBPath]);
    } else {
      if DBHost !in raw { return Err(Missing(DBHost)); }
      cfg := cfg.(dbHost := raw[DBHost]);
      if DBPort !in raw { return Err(Missing(DBPort)); }
      var port := Positive(raw[DBPort]);
      if port == None { return Err(Unrecognised(DBPort)); }
      cfg := cfg.(dbPort := port.value);
      if DBUser !in raw { return Err(Missing(DBUser)); }
      cfg := cfg.(dbUser := raw[DBUser], dbPassword := Get(raw, DBPassword));
      if DBName !in raw { return Err(Missing(DBName)); }
      cfg := cfg.(dbName := raw[DBName]);
    }
    return Ok(cfg);
  }

  method ValidateNotify(raw: Directives, base: Config) returns (r: Result<Config, Complaint>)
    requires base.notifyTargetType == "" && base.notifyTargetARN == ""
    ensures r.Err? ==> Justified(raw, r.error)
    ensures r.Ok? ==> (NotifyTargetType in raw <==> NotifyTargetARN in raw)
    ensures r.Ok? && NotifyTargetType in raw ==> Admissible(NotifyTargetType, raw[NotifyTargetType])
    ensures r.Ok? ==>
      r.value == base.(notifyTargetType := Lower(Get(raw, NotifyTargetType)), notifyTargetARN := Get(raw, NotifyTargetARN))
  {
    if NotifyTargetType !in raw && NotifyTargetARN !in raw {
      return Ok(base);
    } else if NotifyTargetARN !in raw {
      return Err(Missing(NotifyTargetARN));
    } else if NotifyTargetType !in raw {
      return Err(Missing(NotifyTargetType));
    }
    var target := Lower(raw[NotifyTargetType]);
    if target != "lambda" && target != "stepfunction" {
      return Err(Unrecognised(NotifyTargetType));
    }
    return Ok(base.(notifyTargetType := target, notifyTargetARN := raw[NotifyTargetARN]));
  }

  method ValidateHost(raw: Directives) returns (r: Result<Config, Complaint>)
    ensures r.Err? ==> Justified(raw, r.error)
    ensures r.Ok? ==> (forall k :: k in {CloudProvider, PollIntervalSeconds, AuditLogPath, CheckpointBaseDir} ==> k in raw)
    ensures r.Ok? ==> Admissible(CloudProvider, Get(raw, CloudProvider))
    ensures r.Ok? ==> Admissible(PollIntervalSeconds, Get(raw, PollIntervalSeconds))
    ensures r.Ok? ==>
      var m := Meaning(raw);
      r.value == NO_CONFIG.(cloudProvider := m.cloudProvider, pollInterval := m.pollInterval,
                            auditLogPath := m.auditLogPath, checkpointBaseDir := m.checkpointBaseDir)
  {
    var cfg := NO_CONFIG;
    if CloudProvider !in raw { return Err(Missing(CloudProvider)); }
    var provider := Lower(raw[CloudProvider]);
    if provider !in {"aws", "azure", "gcp"} { return Err(Unrecognised(CloudProvider)); }
    if provider != "aws" { return Err(NotImplemented(CloudProvider)); }
    cfg := cfg.(cloudProvider := provider);
    if PollIntervalSeconds !in raw { return Err(Missing(PollIntervalSeconds)); }
    var seconds := Positive(raw[PollIntervalSeconds]);
    if seconds == None { return Err(Unrecognised(PollIntervalSeconds)); }
    cfg := cfg.(pollInterval := Interval(seconds.value));
    if AuditLogPath !in raw { return Err(Missing(AuditLogPath)); }
    cfg := cfg.(auditLogPath := raw[AuditLogPath]);
    if CheckpointBaseDir !in raw { return Err(Missing(CheckpointBaseDir)); }
    cfg := cfg.(checkpointBaseDir := raw[CheckpointBaseDir]);
    return Ok(cfg);
  }

  /** validate: the checks in the order they are made. A file is accepted exactly when nothing needed is missing and
      everything consulted is admissible; otherwise the complaint is a true one. */
  method Validate(raw: Directives) returns (r: Result<Config, Complaint>)
    ensures r.Ok? <==> Acceptable(raw)
    ensures r.Ok? ==> r.value == Meaning(raw)
    ensures r.Err? ==> Justified(raw, r.error)
  {
    r := ValidateHost(raw);
    if r.Err? { JustifiedMeansUnacceptable(raw, r.error); return; }
    var cfg := r.value;
    var dbType := Backend(raw);
    if dbType != "sqlite" && dbType != "mysql" {
      r := Err(Unrecognised(DBType));
      JustifiedMeansUnacceptable(raw, r.error);
      return;
    }
    r := ValidateBackend(raw, cfg.(dbType := dbType));
    if r.Err? { JustifiedMeansUnacceptable(raw, r.error); return; }
    r := ValidateNotify(raw, r.value);
    if r.Err? { JustifiedMeansUnacceptable(raw, r.error); return; }
    cfg := r.value;
    if MaxConcurrentCheckpoints in raw {
      var n := Positive(raw[MaxConcurrentCheckpoints]);
      if n == None {
        r := Err(Unrecognised(MaxConcurrentCheckpoints));
        JustifiedMeansUnacceptable(raw, r.error);
        return;
      }
      cfg := cfg.(maxConcurrentCheckpoints := n.value);
    }
    cfg := cfg.(socketGroup := Get(raw, SocketGroup));
    Accepted(raw);
    r := Ok(cfg);
  }

  lemma Accepted(raw: Directives)
    requires forall k :: k in {CloudProvider, PollIntervalSeconds, AuditLogPath, CheckpointBaseDir} ==> k in raw
    requires forall k :: Needs(raw, k) && k in {DBPath, DBHost, DBPort, DBUser, DBName} ==> k in raw
    requires NotifyTargetType in raw <==> NotifyTargetARN in raw
    requires Admissible(CloudProvider, Get(raw, CloudProvider))
    requires Admissible(PollIntervalSeconds, Get(raw, PollIntervalSeconds))
    requires Backend(raw) == "mysql" ==> Positive(Get(raw, DBPort)).Some?
    requires DBType in raw ==> Admissible(DBType, raw[DBType])
    requires NotifyTargetType in raw ==> Admissible(NotifyTargetType, raw[NotifyTargetType])
    requires MaxConcurrentCheckpoints in raw ==> Admissible(MaxConcurrentCheckpoints, raw[MaxConcurrentCheckpoints])
    ensures Acceptable(raw)
  {
  }
}
