/** What a surviva.conf means does not depend on its layout. */
module ConfigLaws {
  import opened Wrappers
  import opened ConfigText
  import opened Config

  /** The Config a file's lines stand for, if they are accepted. */
  ghost function Loads(lines: seq<string>): Option<Config> {
    match Raw(lines)
    case Ok(raw) => if Acceptable(raw) then Some(Meaning(raw)) else None
    case Err(_) => None
  }

  datatype Problem = BadLine(fault: Fault) | BadFile(complaint: Complaint)

  method Load(text: string) returns (r: Result<Config, Problem>)
    ensures r.Ok? <==> Loads(Scan(text)).Some?
    ensures r.Ok? ==> r.value == Loads(Scan(text)).value
    ensures r.Err? && r.error.BadLine? ==> Raw(Scan(text)) == Err(r.error.fault)
    ensures r.Err? && r.error.BadFile? ==> Raw(Scan(text)).Ok? && Justified(Raw(Scan(text)).value, r.error.complaint)
  {
    var raw := ReadLines(Scan(text));
    if raw.Err? { return Err(BadLine(raw.error)); }
    var cfg := Validate(raw.value);
    if cfg.Err? { return Err(BadFile(cfg.error)); }
    return Ok(cfg.value);
  }

  // ---------------------------------------------------------------- layout
  // What leaves Raw alone leaves the directives, or the fault, as they were, and so the Config, or the error, of Load.

  lemma ReadingsAround(a: seq<string>, x: string, b: seq<string>)
    ensures Readings(a + [x] + b) == Readings(a) + [ParseLine(x)] + Readings(b)
  {
  }

  lemma ReadingsAppend(a: seq<string>, b: seq<string>)
    ensures Readings(a + b) == Readings(a) + Readings(b)
  {
  }

  lemma {:induction false} SkipAnywhere(a: seq<Line>, b: seq<Line>)
    ensures Fold(a + [Skip] + b) == Fold(a + b)
    decreases |b|
  {
    if b == [] {
      assert (a + [Skip] + b)[..|a|] == a;
      assert a + b == a;
    } else {
      var n := |b| - 1;
      assert (a + [Skip] + b)[..|a| + 1 + n] == a + [Skip] + b[..n];
      assert (a + b)[..|a| + n] == a + b[..n];
      SkipAnywhere(a, b[..n]);
    }
  }

  /** A blank line can stand anywhere. */
  lemma {:induction false} BlankLineAnywhere(a: seq<string>, blank: string, b: seq<string>)
    requires AllSpace(blank)
    ensures Raw(a + [blank] + b) == Raw(a + b)
  {
    BlankIsSkipped(blank);
    ReadingsAround(a, blank, b);
    ReadingsAppend(a, b);
    SkipAnywhere(Readings(a), Readings(b));
  }

  /** A comment, indented or not, can stand anywhere. */
  lemma {:induction false} CommentAnywhere(a: seq<string>, pad: string, comment: string, b: seq<string>)
    requires AllSpace(pad)
    ensures Raw(a + [pad + "#" + comment] + b) == Raw(a + b)
  {
    CommentIsSkipped(pad, comment);
    ReadingsAround(a, pad + "#" + comment, b);
    ReadingsAppend(a, b);
    SkipAnywhere(Readings(a), Readings(b));
  }

  /** Capitalising a directive's name differently, or padding its line, its name or its value, changes nothing. */
  lemma {:induction false} SpellingAnywhere(
    a: seq<string>, k: Key, name: string, value: string, p1: string, p2: string, p3: string, p4: string, b: seq<string>)
    requires InAnyCase(name, Name(k)) && AllSpace(p1) && AllSpace(p2) && AllSpace(p3) && AllSpace(p4)
    ensures Raw(a + [p1 + name + p2 + "=" + p3 + value + p4] + b) == Raw(a + [Name(k) + "=" + value] + b)
  {
    var x, y := p1 + name + p2 + "=" + p3 + value + p4, Name(k) + "=" + value;
    SpellingDoesNotMatter(k, name, value, p1, p2, p3, p4);
    CanonicalLine(k, value);
    ReadingsAround(a, x, b);
    ReadingsAround(a, y, b);
  }

  lemma CanonicalLine(k: Key, value: string)
    ensures ParseLine(Name(k) + "=" + value) == Directive(k, TrimSpace(value))
  {
    var name := Name(k);
    SpellingDoesNotMatter(k, name, value, "", "", "", "");
    PadNothing(name, value);
  }

  ghost predicate AgreeOff(m: Directives, n: Directives, k: Key) {
    forall j :: j != k ==> (j in m <==> j in n) && (j in m ==> m[j] == n[j])
  }

  lemma AgreeUpdate(m: Directives, n: Directives, k: Key, j: Key, v: string)
    requires AgreeOff(m, n, k)
    ensures AgreeOff(m[j := v], n[j := v], k)
    ensures j == k ==> m[j := v] == n[j := v]
  {
  }

  /** One directive more, anywhere, changes the fold at its own key only. */
  lemma {:induction false} OneDirectiveMore(a: seq<Line>, k: Key, v: string, b: seq<Line>)
    ensures Fold(a + b).Err? ==> Fold(a + [Directive(k, v)] + b) == Fold(a + b)
    ensures Fold(a + b).Ok? ==>
      Fold(a + [Directive(k, v)] + b).Ok? && AgreeOff(Fold(a + [Directive(k, v)] + b).value, Fold(a + b).value, k)
    decreases |b|
  {
    var x := Directive(k, v);
    if b == [] {
      assert (a + [x] + b)[..|a|] == a;
      assert a + b == a;
    } else {
      var n := |b| - 1;
      var long, short, last := a + [x] + b[..n], a + b[..n], b[n];
      assert a + [x] + b == long + [last] && a + b == short + [last];
      OneDirectiveMore(a, k, v, b[..n]);
      FoldSnoc(long, last);
      FoldSnoc(short, last);
      if last.Directive? && Fold(short).Ok? {
        AgreeUpdate(Fold(long).value, Fold(short).value, k, last.key, last.value);
      }
    }
  }

  /** Equal folds stay equal whatever follows. */
  lemma {:induction false} FoldSuffix(a: seq<Line>, b: seq<Line>, c: seq<Line>)
    requires Fold(a) == Fold(b)
    ensures Fold(a + c) == Fold(b + c)
    decreases |c|
  {
    if c == [] {
      assert a + c == a && b + c == b;
    } else {
      var n := |c| - 1;
      FoldSuffix(a, b, c[..n]);
      assert a + c == a + c[..n] + [c[n]] && b + c == b + c[..n] + [c[n]];
      FoldSnoc(a + c[..n], c[n]);
      FoldSnoc(b + c[..n], c[n]);
    }
  }

  /** The last of several lines that set a directive is the one that counts: the earlier ones could be left out. */
  lemma {:induction false} LastDuplicateWins(a: seq<string>, x: string, b: seq<string>, y: string, c: seq<string>, k: Key)
    requires Sets(ParseLine(x), k) && Sets(ParseLine(y), k)
    ensures Raw(a + [x] + b + [y] + c) == Raw(a + b + [y] + c)
  {
    var a', b', c', x', y' := Readings(a), Readings(b), Readings(c), ParseLine(x), ParseLine(y);
    ReadingsAround(a + [x] + b, y, c);
    ReadingsAround(a, x, b);
    ReadingsAround(a + b, y, c);
    ReadingsAppend(a, b);
    OneDirectiveMore(a', k, x'.value, b');
    FoldSnoc(a' + [x'] + b', y');
    FoldSnoc(a' + b', y');
    if Fold(a' + b').Ok? {
      AgreeUpdate(Fold(a' + [x'] + b').value, Fold(a' + b').value, k, k, y'.value);
    }
    FoldSuffix(a' + [x'] + b' + [y'], a' + b' + [y'], c');
  }

  /** Lines that set the same directive set it to the same value. */
  ghost predicate Consistent(readings: seq<Line>) {
    forall i, j, k :: 0 <= i < |readings| && 0 <= j < |readings| && Sets(readings[i], k) && Sets(readings[j], k)
      ==> readings[i] == readings[j]
  }

  lemma SameElements(a: seq<Line>, b: seq<Line>, i: nat) returns (j: nat)
    requires i < |a| && forall x :: x in a ==> x in b
    ensures j < |b| && b[j] == a[i]
  {
    assert a[i] in a;
    j :| j < |b| && b[j] == a[i];
  }

  lemma SameLookup(a: seq<Line>, b: seq<Line>, k: Key)
    requires (forall x :: x in a ==> x in b) && Consistent(b) && Fold(a).Ok? && Fold(b).Ok?
    ensures k in Fold(a).value ==> k in Fold(b).value && Fold(a).value[k] == Fold(b).value[k]
  {
    if k in Fold(a).value {
      var i := LastWins(a, k);
      var j := SameElements(a, b, i);
      var n := LastWins(b, k);
      assert Sets(b[j], k);
    }
  }

  lemma SameFaults(a: seq<Line>, b: seq<Line>)
    requires (forall x :: x in a ==> x in b) && Fold(b).Ok?
    ensures Fold(a).Ok?
  {
    FoldFails(a);
    FoldFails(b);
    forall i | 0 <= i < |a|
      ensures !a[i].Bad?
    {
      var j := SameElements(a, b, i);
    }
  }

  lemma SameFolds(a: seq<Line>, b: seq<Line>)
    requires (forall x :: x in a ==> x in b) && (forall x :: x in b ==> x in a) && Consistent(a) && Consistent(b)
    requires Fold(a).Ok? && Fold(b).Ok?
    ensures Fold(a) == Fold(b)
  {
    forall k
      ensures k in Fold(a).value <==> k in Fold(b).value
      ensures k in Fold(a).value ==> Fold(a).value[k] == Fold(b).value[k]
    {
      SameLookup(a, b, k);
      SameLookup(b, a, k);
    }
    assert Fold(a).value == Fold(b).value;
  }

  /** Only which lines a file holds matters, not their order or number, when no two of them disagree. */
  lemma {:induction false} OrderDoesNotMatter(a: seq<string>, b: seq<string>)
    requires (forall x :: x in a <==> x in b) && Consistent(Readings(a))
    ensures Loads(a) == Loads(b)
  {
    var a', b' := Readings(a), Readings(b);
    ReadingsOfSame(a, b);
    ReadingsOfSame(b, a);
    forall i, j, k | 0 <= i < |b'| && 0 <= j < |b'| && Sets(b'[i], k) && Sets(b'[j], k)
      ensures b'[i] == b'[j]
    {
      var i' := SameElements(b', a', i);
      var j' := SameElements(b', a', j);
    }
    if Fold(a').Ok? {
      SameFaults(b', a');
      SameFolds(a', b');
    } else if Fold(b').Ok? {
      SameFaults(a', b');
    }
  }

  lemma ReadingsOfSame(a: seq<string>, b: seq<string>)
    requires forall x :: x in a ==> x in b
    ensures forall x :: x in Readings(a) ==> x in Readings(b)
  {
    forall i | 0 <= i < |a|
      ensures Readings(a)[i] in Readings(b)
    {
      assert a[i] in b;
      var j :| 0 <= j < |b| && b[j] == a[i];
      assert Readings(b)[j] == Readings(a)[i];
    }
  }

  /** No directive is set twice. */
  ghost predicate DistinctKeys(lines: seq<string>) {
    forall i, j, k :: 0 <= i < j < |lines| && Sets(ParseLine(lines[i]), k) ==> !Sets(ParseLine(lines[j]), k)
  }

  /** A file without duplicates means the same in any order. */
  lemma {:induction false} PermutedLines(a: seq<string>, b: seq<string>)
    requires multiset(a) == multiset(b) && DistinctKeys(a)
    ensures Loads(a) == Loads(b)
  {
    forall x
      ensures x in a <==> x in b
    {
      assert x in a <==> x in multiset(a);
      assert x in b <==> x in multiset(b);
    }
    OrderDoesNotMatter(a, b);
  }
}
