/** What a surviva.conf has to say, written out directive by directive: what is needed, what may be left out, and which
    values are taken. */
module ConfigValues {
  import opened Wrappers
  import opened Numerals
  import opened ConfigText
  import opened Config

  /** The directives as the documentation spells them. */
  function Documented(k: Key): string {
    match k
    case CloudProvider => "CloudProvider"
    case PollIntervalSeconds => "PollIntervalSeconds"
    case AuditLogPath => "AuditLogPath"
    case CheckpointBaseDir => "CheckpointBaseDir"
    case DBPath => "DBPath"
    case MaxConcurrentCheckpoints => "MaxConcurrentCheckpoints"
    case DBType => "DBType"
    case DBHost => "DBHost"
    case DBPort => "DBPort"
    case DBUser => "DBUser"
    case DBPassword => "DBPassword"
    case DBName => "DBName"
    case NotifyTargetType => "NotifyTargetType"
    case NotifyTargetARN => "NotifyTargetARN"
    case SocketGroup => "SocketGroup"
  }

  /** A line that spells a directive as documented reads as that directive. */
  lemma DocumentedLine(k: Key, value: string)
    ensures ParseLine(Documented(k) + "=" + value) == Directive(k, TrimSpace(value))
  {
    DocumentedName(k);
    PlainLine(k, Documented(k), value);
  }

  lemma PlainLine(k: Key, name: string, value: string)
    requires InAnyCase(name, Name(k))
    ensures ParseLine(name + "=" + value) == Directive(k, TrimSpace(value))
  {
    SpellingDoesNotMatter(k, name, value, "", "", "", "");
    PadNothing(name, value);
  }

  lemma DocumentedName(k: Key)
    ensures InAnyCase(Documented(k), Name(k))
  {
    var n := |Documented(k)|;
    if n <= 6 {
      NamesUpTo6(k);
    } else if n <= 11 {
      NamesUpTo11(k);
    } else if n <= 13 {
      NamesUpTo13(k);
    } else if n <= 16 {
      NamesUpTo16(k);
    } else if n <= 17 {
      NamesUpTo17(k);
    } else if n <= 19 {
      NamesUpTo19(k);
    } else {
      NamesUpTo24(k);
    }
  }

  lemma NamesUpTo6(k: Key)
    requires 0 < |Documented(k)| <= 6
    ensures InAnyCase(Documented(k), Name(k))
  {
  }

  lemma NamesUpTo11(k: Key)
    requires 6 < |Documented(k)| <= 11
    ensures InAnyCase(Documented(k), Name(k))
  {
  }

  lemma NamesUpTo13(k: Key)
    requires 11 < |Documented(k)| <= 13
    ensures InAnyCase(Documented(k), Name(k))
  {
  }

  lemma NamesUpTo16(k: Key)
    requires 13 < |Documented(k)| <= 16
    ensures InAnyCase(Documented(k), Name(k))
  {
  }

  lemma NamesUpTo17(k: Key)
    requires 16 < |Documented(k)| <= 17
    ensures InAnyCase(Documented(k), Name(k))
  {
  }

  lemma NamesUpTo19(k: Key)
    requires 17 < |Documented(k)| <= 19
    ensures InAnyCase(Documented(k), Name(k))
  {
  }

  lemma NamesUpTo24(k: Key)
    requires 19 < |Documented(k)| <= 24
    ensures InAnyCase(Documented(k), Name(k))
  {
  }

  predicate PositiveNumber(s: string) {
    ParseInt(s).Some? && ParseInt(s).value > 0
  }

  /** A file is for sqlite unless its DBType says mysql. */
  predicate ForMysql(raw: Directives) {
    DBType in raw && InAnyCase(raw[DBType], "mysql")
  }

  predicate HostGiven(raw: Directives) {
    && {CloudProvider, PollIntervalSeconds, AuditLogPath, CheckpointBaseDir} <= raw.Keys
    && InAnyCase(raw[CloudProvider], "aws") && PositiveNumber(raw[PollIntervalSeconds])
  }

  predicate BackendGiven(raw: Directives) {
    if ForMysql(raw) then {DBHost, DBPort, DBUser, DBName} <= raw.Keys && PositiveNumber(raw[DBPort])
    else (DBType in raw ==> InAnyCase(raw[DBType], "sqlite")) && DBPath in raw
  }

  predicate NotifyGiven(raw: Directives) {
    && (NotifyTargetType in raw <==> NotifyTargetARN in raw)
    && (NotifyTargetType in raw ==>
          InAnyCase(raw[NotifyTargetType], "lambda") || InAnyCase(raw[NotifyTargetType], "stepfunction"))
  }

  predicate BoundGiven(raw: Directives) {
    MaxConcurrentCheckpoints in raw ==> PositiveNumber(raw[MaxConcurrentCheckpoints])
  }

  lemma SmallWord(w: string)
    requires w in {"aws", "sqlite", "mysql", "lambda", "stepfunction"}
    ensures forall i :: 0 <= i < |w| ==> 'a' <= w[i] <= 'z'
  {
  }

  /** The words that values are compared with are compared without regard to case. */
  lemma WordInAnyCase(v: string, w: string)
    requires w in {"aws", "sqlite", "mysql", "lambda", "stepfunction"}
    ensures InAnyCase(v, w) <==> Lower(v) == w
  {
    SmallWord(w);
    InAnyCaseOfSmall(v, w);
  }

  lemma BackendIs(raw: Directives)
    ensures Backend(raw) == "mysql" <==> ForMysql(raw)
    ensures Backend(raw) == "sqlite" <==> DBType !in raw || InAnyCase(raw[DBType], "sqlite")
  {
    assert "sqlite" != "mysql" by { assert |"sqlite"| == 6 && |"mysql"| == 5; }
    if DBType in raw {
      WordInAnyCase(raw[DBType], "mysql");
      WordInAnyCase(raw[DBType], "sqlite");
    }
  }

  lemma WordsOf(raw: Directives)
    ensures CloudProvider in raw ==> (InAnyCase(raw[CloudProvider], "aws") <==> Lower(raw[CloudProvider]) == "aws")
    ensures NotifyTargetType in raw ==>
              && (InAnyCase(raw[NotifyTargetType], "lambda") <==> Lower(raw[NotifyTargetType]) == "lambda")
              && (InAnyCase(raw[NotifyTargetType], "stepfunction") <==> Lower(raw[NotifyTargetType]) == "stepfunction")
  {
    if CloudProvider in raw {
      WordInAnyCase(raw[CloudProvider], "aws");
    }
    if NotifyTargetType in raw {
      WordInAnyCase(raw[NotifyTargetType], "lambda");
      WordInAnyCase(raw[NotifyTargetType], "stepfunction");
    }
  }

  /** The files that are accepted, in full. A database directive of the backend that is not used, the password, the bound
      and the socket group may be missing, and the first are not even looked at. */
  lemma AcceptedIff(raw: Directives)
    ensures Acceptable(raw) <==> HostGiven(raw) && BackendGiven(raw) && NotifyGiven(raw) && BoundGiven(raw)
  {
    BackendIs(raw);
    WordsOf(raw);
    if Acceptable(raw) {
      AcceptedGives(raw);
    }
    if HostGiven(raw) && BackendGiven(raw) && NotifyGiven(raw) && BoundGiven(raw) {
      Accepted(raw);
    }
  }

  lemma AcceptedGives(raw: Directives)
    requires Acceptable(raw)
    ensures HostGiven(raw) && BackendGiven(raw) && NotifyGiven(raw) && BoundGiven(raw)
  {
    BackendIs(raw);
    WordsOf(raw);
    assert forall k :: k in {CloudProvider, PollIntervalSeconds, AuditLogPath, CheckpointBaseDir} ==> Needs(raw, k);
    assert forall k ::
        k in {CloudProvider, PollIntervalSeconds, MaxConcurrentCheckpoints} && k in raw ==> Consulted(raw, k);
    assert NotifyTargetType in raw ==> Needs(raw, NotifyTargetARN) && Consulted(raw, NotifyTargetType);
    assert NotifyTargetARN in raw ==> Needs(raw, NotifyTargetType);
    assert DBType in raw ==> Consulted(raw, DBType);
    if ForMysql(raw) {
      assert forall k :: k in {DBHost, DBPort, DBUser, DBName} ==> Needs(raw, k);
      assert Consulted(raw, DBPort);
    } else {
      assert Needs(raw, DBPath);
    }
  }

  /** What an accepted file says of the host; a bound it leaves out is 0, which New replaces, and a group it leaves out is
      empty. */
  lemma HostFields(raw: Directives)
    requires Acceptable(raw)
    ensures var cfg := Meaning(raw);
            && cfg.cloudProvider == "aws"
            && cfg.auditLogPath == raw[AuditLogPath] && cfg.checkpointBaseDir == raw[CheckpointBaseDir]
            && cfg.maxConcurrentCheckpoints ==
                 (if MaxConcurrentCheckpoints in raw then ParseInt(raw[MaxConcurrentCheckpoints]).value else 0)
            && cfg.socketGroup == (if SocketGroup in raw then raw[SocketGroup] else "")
  {
    AcceptedIff(raw);
    WordsOf(raw);
  }

  /** The backend is sqlite unless DBType says mysql, and only its fields are set. */
  lemma BackendFields(raw: Directives)
    requires Acceptable(raw)
    ensures var cfg := Meaning(raw);
            if ForMysql(raw)
            then && cfg.dbType == "mysql" && cfg.dbPath == ""
                 && cfg.dbHost == raw[DBHost] && cfg.dbPort == ParseInt(raw[DBPort]).value && cfg.dbUser == raw[DBUser]
                 && cfg.dbPassword == (if DBPassword in raw then raw[DBPassword] else "") && cfg.dbName == raw[DBName]
            else && cfg.dbType == "sqlite" && cfg.dbPath == raw[DBPath]
                 && cfg.dbHost == cfg.dbUser == cfg.dbPassword == cfg.dbName == "" && cfg.dbPort == 0
  {
    AcceptedIff(raw);
    BackendIs(raw);
  }

  /** The notify target is given in full or not at all. */
  lemma NotifyFields(raw: Directives)
    requires Acceptable(raw)
    ensures var cfg := Meaning(raw);
            if NotifyTargetARN in raw
            then && cfg.notifyTargetARN == raw[NotifyTargetARN]
                 && cfg.notifyTargetType == if InAnyCase(raw[NotifyTargetType], "lambda") then "lambda" else "stepfunction"
            else cfg.notifyTargetARN == cfg.notifyTargetType == ""
  {
    AcceptedIff(raw);
    WordsOf(raw);
  }

  /** The directives whose values are read without regard to case. */
  predicate Caseless(k: Key) {
    k == CloudProvider || k == DBType || k == NotifyTargetType
  }

  /** Writing the provider, the backend or the notify type in another case changes nothing. */
  lemma ValueCaseDoesNotMatter(raw: Directives, k: Key, v: string, v': string, w: string)
    requires Caseless(k) && w in {"aws", "sqlite", "mysql", "lambda", "stepfunction"}
    requires InAnyCase(v, w) && InAnyCase(v', w)
    ensures Acceptable(raw[k := v]) <==> Acceptable(raw[k := v'])
    ensures Meaning(raw[k := v]) == Meaning(raw[k := v'])
  {
    WordInAnyCase(v, w);
    WordInAnyCase(v', w);
    AlikeAccepted(raw[k := v], raw[k := v'], k);
    AlikeAccepted(raw[k := v'], raw[k := v], k);
    AlikeMeaning(raw[k := v], raw[k := v'], k);
  }

  /** The two differ in the case of one value at most. */
  ghost predicate Alike(m: Directives, n: Directives, k: Key) {
    && Caseless(k) && k in m && k in n && Lower(m[k]) == Lower(n[k])
    && forall j :: j != k ==> (j in m <==> j in n) && (j in m ==> m[j] == n[j])
  }

  lemma AlikeAccepted(m: Directives, n: Directives, k: Key)
    requires Alike(m, n, k)
    ensures Acceptable(m) ==> Acceptable(n)
  {
    if Acceptable(m) {
      assert Backend(m) == Backend(n);
      forall j | Needs(n, j)
        ensures j in n
      {
        assert Needs(m, j);
      }
      forall j | Consulted(n, j)
        ensures Admissible(j, n[j])
      {
        assert Consulted(m, j);
      }
    }
  }

  lemma AlikeMeaning(m: Directives, n: Directives, k: Key)
    requires Alike(m, n, k)
    ensures Meaning(m) == Meaning(n)
  {
    assert forall j :: !Caseless(j) ==> Get(m, j) == Get(n, j);
    SameNumbers(m, n);
    assert Lower(Get(m, CloudProvider)) == Lower(Get(n, CloudProvider));
    assert Lower(Get(m, NotifyTargetType)) == Lower(Get(n, NotifyTargetType));
    SameMeaning(m, n);
  }

  lemma SameNumbers(m: Directives, n: Directives)
    requires forall j :: !Caseless(j) ==> Get(m, j) == Get(n, j)
    ensures forall j :: !Caseless(j) ==> Number(m, j) == Number(n, j)
  {
  }

  lemma SameMeaning(m: Directives, n: Directives)
    requires Backend(m) == Backend(n)
    requires Lower(Get(m, CloudProvider)) == Lower(Get(n, CloudProvider))
    requires Lower(Get(m, NotifyTargetType)) == Lower(Get(n, NotifyTargetType))
    requires forall j :: !Caseless(j) ==> Get(m, j) == Get(n, j) && Number(m, j) == Number(n, j)
    ensures Meaning(m) == Meaning(n)
  {
    assert Interval(Number(m, PollIntervalSeconds)) == Interval(Number(n, PollIntervalSeconds));
  }
}
