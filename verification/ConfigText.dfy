/** The lines of surviva.conf: trimming, cutting at '=', and the fold of lines into directives. Case mapping is
    ASCII. */
module ConfigText {
  import opened Wrappers

  datatype Key =
    | CloudProvider | PollIntervalSeconds | AuditLogPath | CheckpointBaseDir | DBPath | MaxConcurrentCheckpoints
    | DBType | DBHost | DBPort | DBUser | DBPassword | DBName | NotifyTargetType | NotifyTargetARN | SocketGroup

  /** The canonical name of a directive. */
  function Name(k: Key): string {
    match k
    case CloudProvider => "CLOUDPROVIDER"
    case PollIntervalSeconds => "POLLINTERVALSECONDS"
    case AuditLogPath => "AUDITLOGPATH"
    case CheckpointBaseDir => "CHECKPOINTBASEDIR"
    case DBPath => "DBPATH"
    case MaxConcurrentCheckpoints => "MAXCONCURRENTCHECKPOINTS"
    case DBType => "DBTYPE"
    case DBHost => "DBHOST"
    case DBPort => "DBPORT"
    case DBUser => "DBUSER"
    case DBPassword => "DBPASSWORD"
    case DBName => "DBNAME"
    case NotifyTargetType => "NOTIFYTARGETTYPE"
    case NotifyTargetARN => "NOTIFYTARGETARN"
    case SocketGroup => "SOCKETGROUP"
  }

  /** The directive a canonical name stands for: the lookup in knownKeys. */
  function KeyOf(s: string): (r: Option<Key>)
    ensures r.Some? ==> Name(r.value) == s
  {
    if s == "CLOUDPROVIDER" then Some(CloudProvider)
    else if s == "POLLINTERVALSECONDS" then Some(PollIntervalSeconds)
    else if s == "AUDITLOGPATH" then Some(AuditLogPath)
    else if s == "CHECKPOINTBASEDIR" then Some(CheckpointBaseDir)
    else if s == "DBPATH" then Some(DBPath)
    else if s == "MAXCONCURRENTCHECKPOINTS" then Some(MaxConcurrentCheckpoints)
    else if s == "DBTYPE" then Some(DBType)
    else if s == "DBHOST" then Some(DBHost)
    else if s == "DBPORT" then Some(DBPort)
    else if s == "DBUSER" then Some(DBUser)
    else if s == "DBPASSWORD" then Some(DBPassword)
    else if s == "DBNAME" then Some(DBName)
    else if s == "NOTIFYTARGETTYPE" then Some(NotifyTargetType)
    else if s == "NOTIFYTARGETARN" then Some(NotifyTargetARN)
    else if s == "SOCKETGROUP" then Some(SocketGroup)
    else None
  }

  /** Names tell directives apart: by their length, and the six-letter ones by their third and fourth letters. */
  lemma KeyOfName(k: Key)
    ensures KeyOf(Name(k)) == Some(k)
  {
    var s := Name(k);
    if |s| == 6 {
      assert "DBPATH"[2] == 'P' && "DBPATH"[3] == 'A' && "DBPORT"[2] == 'P' && "DBPORT"[3] == 'O';
      assert "DBTYPE"[2] == 'T' && "DBHOST"[2] == 'H' && "DBUSER"[2] == 'U' && "DBNAME"[2] == 'N';
    }
  }

  // ---------------------------------------------------------------- white space and case

  /** unicode.IsSpace. */
  predicate IsSpace(c: char) {
    var n := c as int;
    || 9 <= n <= 13 || n == 32 || n == 0x85 || n == 0xA0 || n == 0x1680 || 0x2000 <= n <= 0x200a
    || n == 0x2028 || n == 0x2029 || n == 0x202f || n == 0x205f || n == 0x3000
  }

  predicate AllSpace(s: string) {
    forall i :: 0 <= i < |s| ==> IsSpace(s[i])
  }

  predicate Trimmed(s: string) {
    s == "" || (!IsSpace(s[0]) && !IsSpace(s[|s| - 1]))
  }

  function TrimLeft(s: string): string {
    if s != "" && IsSpace(s[0]) then TrimLeft(s[1..]) else s
  }

  function TrimRight(s: string): string {
    if s != "" && IsSpace(s[|s| - 1]) then TrimRight(s[..|s| - 1]) else s
  }

  /** strings.TrimSpace. */
  function TrimSpace(s: string): string {
    TrimRight(TrimLeft(s))
  }

  function UpperChar(c: char): char {
    if 'a' <= c <= 'z' then (c as int - 32) as char else c
  }

  function LowerChar(c: char): char {
    if 'A' <= c <= 'Z' then (c as int + 32) as char else c
  }

  function Upper(s: string): (r: string)
    ensures |r| == |s| && forall i :: 0 <= i < |s| ==> r[i] == UpperChar(s[i])
  {
    if s == "" then "" else [UpperChar(s[0])] + Upper(s[1..])
  }

  function Lower(s: string): (r: string)
    ensures |r| == |s| && forall i :: 0 <= i < |s| ==> r[i] == LowerChar(s[i])
  {
    if s == "" then "" else [LowerChar(s[0])] + Lower(s[1..])
  }

  /** s is the word w with some of its letters in the other case, w being all capitals or all small letters. */
  predicate InAnyCase(s: string, w: string) {
    && |s| == |w|
    && forall i :: 0 <= i < |s| ==>
         || s[i] == w[i]
         || ('A' <= w[i] <= 'Z' && s[i] as int == w[i] as int + 32)
         || ('a' <= w[i] <= 'z' && s[i] as int == w[i] as int - 32)
  }

  lemma InAnyCaseOfCapitals(s: string, w: string)
    requires forall i :: 0 <= i < |w| ==> 'A' <= w[i] <= 'Z'
    ensures InAnyCase(s, w) <==> Upper(s) == w
  {
    if Upper(s) == w {
      assert forall i :: 0 <= i < |s| ==> UpperChar(s[i]) == w[i];
    }
  }

  lemma InAnyCaseOfSmall(s: string, w: string)
    requires forall i :: 0 <= i < |w| ==> 'a' <= w[i] <= 'z'
    ensures InAnyCase(s, w) <==> Lower(s) == w
  {
    if Lower(s) == w {
      assert forall i :: 0 <= i < |s| ==> LowerChar(s[i]) == w[i];
    }
  }

  lemma {:induction false} TrimLeftPad(p: string, s: string)
    requires AllSpace(p) && (s == "" || !IsSpace(s[0]))
    ensures TrimLeft(p + s) == s
  {
    if p == "" {
      assert p + s == s;
    } else {
      assert (p + s)[1..] == p[1..] + s;
      TrimLeftPad(p[1..], s);
    }
  }

  lemma {:induction false} TrimRightPad(s: string, q: string)
    requires AllSpace(q) && (s == "" || !IsSpace(s[|s| - 1]))
    ensures TrimRight(s + q) == s
  {
    if q == "" {
      assert s + q == s;
    } else {
      assert (s + q)[..|s + q| - 1] == s + q[..|q| - 1];
      TrimRightPad(s, q[..|q| - 1]);
    }
  }

  /** Trimming is determined: what is left between two runs of white space, if it is itself trimmed, is the result. */
  lemma TrimUnique(p: string, s: string, q: string)
    requires AllSpace(p) && AllSpace(q) && Trimmed(s)
    ensures TrimSpace(p + s + q) == s
  {
    if s == "" {
      assert p + s + q == p + q + "";
      TrimLeftPad(p + q, "");
    } else {
      assert p + s + q == p + (s + q);
      TrimLeftPad(p, s + q);
      TrimRightPad(s, q);
    }
  }

  lemma {:induction false} TrimLeftSplits(s: string) returns (p: string)
    ensures AllSpace(p) && s == p + TrimLeft(s) && (TrimLeft(s) == "" || !IsSpace(TrimLeft(s)[0]))
  {
    p := "";
    if s != "" && IsSpace(s[0]) {
      var p' := TrimLeftSplits(s[1..]);
      p := [s[0]] + p';
    }
  }

  lemma {:induction false} TrimRightSplits(s: string) returns (q: string)
    ensures AllSpace(q) && s == TrimRight(s) + q && (TrimRight(s) == "" || !IsSpace(TrimRight(s)[|TrimRight(s)| - 1]))
  {
    q := "";
    if s != "" && IsSpace(s[|s| - 1]) {
      var q' := TrimRightSplits(s[..|s| - 1]);
      q := q' + [s[|s| - 1]];
    }
  }

  lemma TrimSplits(s: string) returns (p: string, q: string)
    ensures AllSpace(p) && AllSpace(q) && Trimmed(TrimSpace(s)) && s == p + TrimSpace(s) + q
  {
    p := TrimLeftSplits(s);
    q := TrimRightSplits(TrimLeft(s));
    if TrimSpace(s) != "" {
      assert TrimSpace(s)[0] == TrimLeft(s)[0];
    }
  }

  /** White space around a string does not change what trimming leaves. */
  lemma TrimPadded(p: string, s: string, q: string)
    requires AllSpace(p) && AllSpace(q)
    ensures TrimSpace(p + s + q) == TrimSpace(s)
  {
    var p', q' := TrimSplits(s);
    assert p + s + q == (p + p') + TrimSpace(s) + (q' + q);
    TrimUnique(p + p', TrimSpace(s), q' + q);
  }

  // ---------------------------------------------------------------- one line

  /** strings.Cut(s, "="). */
  function Cut(s: string): Option<(string, string)> {
    if s == "" then None
    else if s[0] == '=' then Some(("", s[1..]))
    else
      match Cut(s[1..])
      case None => None
      case Some((k, v)) => Some(([s[0]] + k, v))
  }

  lemma {:induction false} CutAt(k: string, v: string)
    requires '=' !in k
    ensures Cut(k + "=" + v) == Some((k, v))
  {
    var s := k + "=" + v;
    if k == "" {
      assert s[1..] == v;
    } else {
      assert s[1..] == k[1..] + "=" + v;
      CutAt(k[1..], v);
      assert [k[0]] + k[1..] == k;
    }
  }

  datatype Fault = NotKeyValue(line: string) | UnknownDirective(key: string)

  datatype Line = Skip | Directive(key: Key, value: string) | Bad(fault: Fault)

  function ParseLine(text: string): Line {
    var line := TrimSpace(text);
    if line == "" || line[0] == '#' then Skip
    else
      match Cut(line)
      case None => Bad(NotKeyValue(line))
      case Some((k, v)) =>
        match KeyOf(Upper(TrimSpace(k)))
        case None => Bad(UnknownDirective(Upper(TrimSpace(k))))
        case Some(key) => Directive(key, TrimSpace(v))
  }

  lemma BlankIsSkipped(text: string)
    requires AllSpace(text)
    ensures ParseLine(text) == Skip
  {
    TrimUnique(text, "", "");
    assert text + "" + "" == text;
  }

  /** Trimming the end of a line never eats into a part that ends in a visible character. */
  lemma TailKeepsCut(cut: string, rest: string, tail: string, q: string)
    requires cut != "" && !IsSpace(cut[|cut| - 1]) && AllSpace(q) && cut + rest == tail + q
    ensures |tail| >= |cut| && tail[..|cut|] == cut && tail[|cut|..] + q == rest
  {
    var whole := tail + q;
    forall i | |tail| <= i < |whole|
      ensures IsSpace(whole[i])
    {
      assert whole[i] == q[i - |tail|];
    }
    assert whole[|cut| - 1] == cut[|cut| - 1];
    assert tail == whole[..|tail|] && tail[..|cut|] == whole[..|cut|];
    assert rest == (cut + rest)[|cut|..] == whole[|cut|..] == tail[|cut|..] + q;
  }

  lemma CommentIsSkipped(pad: string, text: string)
    requires AllSpace(pad)
    ensures ParseLine(pad + "#" + text) == Skip
  {
    var s := pad + "#" + text;
    assert s == pad + ("#" + text);
    TrimLeftPad(pad, "#" + text);
    var q := TrimRightSplits("#" + text);
    TailKeepsCut("#", text, TrimSpace(s), q);
    assert TrimSpace(s)[0] == '#';
  }

  predicate Letters(s: string) {
    s != "" && forall i :: 0 <= i < |s| ==> 'A' <= s[i] <= 'Z'
  }

  lemma NameLetters(k: Key)
    ensures Letters(Name(k))
  {
    if |Name(k)| <= 13 {
      ShortLetters(k);
    } else if |Name(k)| <= 16 {
      MiddleLetters(k);
    } else {
      LongLetters(k);
    }
  }

  lemma ShortLetters(k: Key)
    requires |Name(k)| <= 13
    ensures Letters(Name(k))
  {
  }

  lemma MiddleLetters(k: Key)
    requires 13 < |Name(k)| <= 16
    ensures Letters(Name(k))
  {
  }

  lemma LongLetters(k: Key)
    requires |Name(k)| > 16
    ensures Letters(Name(k))
  {
  }

  /** Any capitalisation of a directive's name is a run of visible characters other than '=' and '#'. */
  predicate Plain(name: string) {
    name != "" && forall i :: 0 <= i < |name| ==> !IsSpace(name[i]) && name[i] != '=' && name[i] != '#'
  }

  lemma CapitalName(k: Key, name: string)
    ensures InAnyCase(name, Name(k)) <==> Upper(name) == Name(k)
  {
    NameLetters(k);
    InAnyCaseOfCapitals(name, Name(k));
  }

  lemma NameIsPlain(k: Key, name: string)
    requires Upper(name) == Name(k)
    ensures Plain(name)
  {
    NameLetters(k);
    forall i | 0 <= i < |name|
      ensures !IsSpace(name[i]) && name[i] != '=' && name[i] != '#'
    {
      assert UpperChar(name[i]) == Name(k)[i];
    }
  }

  /** Trimming a line of the form name = value leaves the name, its padding and the sign in place. */
  lemma TrimmedDirective(p: string, name: string, gap: string, rest: string) returns (v: string)
    requires AllSpace(p) && Plain(name)
    ensures TrimSpace(p + (name + gap + "=" + rest)) == name + gap + "=" + v && TrimSpace(v) == TrimSpace(rest)
  {
    var cut := name + gap + "=";
    assert (cut + rest)[0] == name[0];
    TrimLeftPad(p, cut + rest);
    var tail := TrimRight(cut + rest);
    var q := TrimRightSplits(cut + rest);
    TailKeepsCut(cut, rest, tail, q);
    v := tail[|cut|..];
    TrimPadded("", v, q);
    assert "" + v + q == rest;
  }

  lemma CutDirective(name: string, gap: string, v: string)
    requires Plain(name) && AllSpace(gap)
    ensures Cut(name + gap + "=" + v) == Some((name + gap, v)) && TrimSpace(name + gap) == name
    ensures (name + gap + "=" + v)[0] == name[0] != '#'
  {
    CutAt(name + gap, v);
    TrimUnique("", name, gap);
    assert "" + name + gap == name + gap;
  }

  lemma SpelledLine(k: Key, name: string, p: string, gap: string, rest: string)
    requires Upper(name) == Name(k) && AllSpace(p) && AllSpace(gap)
    ensures ParseLine(p + (name + gap + "=" + rest)) == Directive(k, TrimSpace(rest))
  {
    NameIsPlain(k, name);
    var v := TrimmedDirective(p, name, gap, rest);
    CutDirective(name, gap, v);
    ReadDirective(k, p + (name + gap + "=" + rest), name + gap + "=" + v, name + gap, v);
  }

  /** A directive reads the same however its name is capitalised and whatever white space surrounds its parts. */
  lemma SpellingDoesNotMatter(k: Key, name: string, value: string, p1: string, p2: string, p3: string, p4: string)
    requires InAnyCase(name, Name(k)) && AllSpace(p1) && AllSpace(p2) && AllSpace(p3) && AllSpace(p4)
    ensures ParseLine(p1 + name + p2 + "=" + p3 + value + p4) == Directive(k, TrimSpace(value))
  {
    CapitalName(k, name);
    SpelledLine(k, name, p1, p2, p3 + value + p4);
    Regrouped(p1, name, p2, p3, value, p4);
    TrimPadded(p3, value, p4);
  }

  lemma PadNothing(name: string, value: string)
    ensures "" + name + "" + "=" + "" + value + "" == name + "=" + value
  {
  }

  lemma Regrouped(p1: string, name: string, p2: string, p3: string, value: string, p4: string)
    ensures p1 + name + p2 + "=" + p3 + value + p4 == p1 + (name + p2 + "=" + (p3 + value + p4))
  {
  }

  lemma ReadDirective(k: Key, text: string, line: string, key: string, v: string)
    requires TrimSpace(text) == line != "" && line[0] != '#' && Cut(line) == Some((key, v))
    requires Upper(TrimSpace(key)) == Name(k)
    ensures ParseLine(text) == Directive(k, TrimSpace(v))
  {
    KeyOfName(k);
  }

  // ---------------------------------------------------------------- exactly which lines are directives

  /** text is a directive's name in any case, an equals sign and the rest, with white space before and behind the name. */
  predicate DirectiveForm(text: string, k: Key, p: string, name: string, gap: string, rest: string) {
    text == p + (name + gap + "=" + rest) && AllSpace(p) && AllSpace(gap) && InAnyCase(name, Name(k))
  }

  /** A line reads as a directive exactly when it has that form, and then the value is the trimmed rest. */
  lemma DirectiveIff(text: string, k: Key, v: string)
    ensures ParseLine(text) == Directive(k, v) <==>
            exists p, name, gap, rest :: DirectiveForm(text, k, p, name, gap, rest) && v == TrimSpace(rest)
  {
    if ParseLine(text) == Directive(k, v) {
      var p, name, gap, rest := DirectiveFound(text, k, v);
      assert DirectiveForm(text, k, p, name, gap, rest);
    }
    if p, name, gap, rest :| DirectiveForm(text, k, p, name, gap, rest) && v == TrimSpace(rest) {
      CapitalName(k, name);
      SpelledLine(k, name, p, gap, rest);
    }
  }

  lemma DirectiveFound(text: string, k: Key, v: string) returns (p: string, name: string, gap: string, rest: string)
    requires ParseLine(text) == Directive(k, v)
    ensures DirectiveForm(text, k, p, name, gap, rest) && v == TrimSpace(rest)
  {
    var line, q := TrimSpace(text), "";
    p, q := TrimSplits(text);
    var key, value := DirectiveParts(text, k, v);
    name := TrimSpace(key);
    CapitalName(k, name);
    gap := NameInFront(key, value, line);
    rest := value + q;
    TrimPadded("", value, q);
    NothingInFront(value, q);
    RegroupedRest(p, name + gap + "=", value, q);
  }

  lemma NothingInFront(s: string, q: string)
    ensures "" + s + q == s + q
  {
  }

  lemma RegroupedRest(p: string, front: string, value: string, q: string)
    ensures p + (front + value) + q == p + (front + (value + q))
  {
  }

  /** What is on either side of a directive's equals sign. */
  lemma DirectiveParts(text: string, k: Key, v: string) returns (key: string, value: string)
    requires ParseLine(text) == Directive(k, v)
    ensures TrimSpace(text) == key + "=" + value
    ensures TrimSpace(key) != "" && Upper(TrimSpace(key)) == Name(k) && v == TrimSpace(value)
  {
    CutParts(TrimSpace(text));
    key, value := Cut(TrimSpace(text)).value.0, Cut(TrimSpace(text)).value.1;
    NameLetters(k);
  }

  /** In a trimmed line the name comes first. */
  lemma NameInFront(key: string, value: string, line: string) returns (gap: string)
    requires Trimmed(line) && line == key + "=" + value && TrimSpace(key) != ""
    ensures AllSpace(gap) && line == TrimSpace(key) + gap + "=" + value
  {
    var front;
    front, gap := TrimSplits(key);
    assert front == "";
    assert key == TrimSpace(key) + gap;
  }

  /** A line is skipped exactly when it is white space or, behind white space, a comment. Any other line that is not a
      directive is faulty. */
  lemma SkipIff(text: string)
    ensures ParseLine(text) == Skip <==>
            AllSpace(text) || exists p, rest :: AllSpace(p) && text == p + "#" + rest
  {
    if ParseLine(text) == Skip {
      var p, q := TrimSplits(text);
      var line := TrimSpace(text);
      if line != "" {
        assert text == p + "#" + (line[1..] + q);
      }
    }
    if AllSpace(text) {
      BlankIsSkipped(text);
    }
    if p, rest :| AllSpace(p) && text == p + "#" + rest {
      CommentIsSkipped(p, rest);
    }
  }

  /** The value of a directive is trimmed and made of characters of its line. */
  lemma ValueIsTrimmed(text: string)
    requires ParseLine(text).Directive?
    ensures Trimmed(ParseLine(text).value)
    ensures forall c :: c in ParseLine(text).value ==> c in text
  {
    var line := TrimSpace(text);
    var v := Cut(line).value.1;
    var p, q := TrimSplits(text);
    var p', q' := TrimSplits(v);
    CutParts(line);
  }

  lemma {:induction false} CutParts(s: string)
    requires Cut(s).Some?
    ensures s == Cut(s).value.0 + "=" + Cut(s).value.1
  {
    if s[0] != '=' {
      CutParts(s[1..]);
    }
  }
}
