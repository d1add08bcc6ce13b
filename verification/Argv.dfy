/** Reading a process's argument vector from /proc/<pid>/cmdline. */
module Argv {
  import opened Wrappers

  const NUL: char := '\0'

  /** strings.TrimRight(s, "\x00"). */
  function TrimRight(s: string): string {
    if s != "" && s[|s| - 1] == NUL then TrimRight(s[..|s| - 1]) else s
  }

  /** strings.Split(s, "\x00"). */
  function Split(s: string): (parts: seq<string>)
    ensures parts != []
  {
    if s == "" then [""]
    else if s[0] == NUL then [""] + Split(s[1..])
    else
      var rest := Split(s[1..]);
      [[s[0]] + rest[0]] + rest[1..]
  }

  /** CommandLine, given what reading the file returned. */
  function CommandLine(raw: Option<string>): Option<seq<string>> {
    if raw.None? || raw.value == "" then None else Some(Split(TrimRight(raw.value)))
  }

  /** What the kernel writes: every argument followed by a NUL. */
  function Encode(argv: seq<string>): string {
    if argv == [] then "" else argv[0] + [NUL] + Encode(argv[1..])
  }

  ghost predicate NulFree(argv: seq<string>) {
    forall i :: 0 <= i < |argv| ==> NUL !in argv[i]
  }

  /** argv without its trailing empty arguments, but never without its first. */
  function DropTrailingEmpty(argv: seq<string>): (r: seq<string>)
    ensures argv != [] ==> r != []
  {
    if |argv| > 1 && argv[|argv| - 1] == "" then DropTrailingEmpty(argv[..|argv| - 1]) else argv
  }

  /** The arguments with NULs between them. */
  function Join(argv: seq<string>): string
    requires argv != []
  {
    if |argv| == 1 then argv[0] else argv[0] + [NUL] + Join(argv[1..])
  }

  lemma {:induction false} EncodeIsJoin(argv: seq<string>)
    requires argv != []
    ensures Encode(argv) == Join(argv) + [NUL]
  {
    if |argv| == 1 {
      assert Encode(argv[1..]) == "";
    } else {
      EncodeIsJoin(argv[1..]);
    }
  }

  lemma {:induction false} JoinLast(argv: seq<string>)
    requires |argv| > 1
    ensures Join(argv) == Join(argv[..|argv| - 1]) + [NUL] + argv[|argv| - 1]
  {
    var front := argv[..|argv| - 1];
    if |argv| == 2 {
      assert Join(argv[1..]) == argv[1];
    } else {
      JoinLast(argv[1..]);
      assert argv[1..][..|argv| - 2] == front[1..];
    }
  }

  lemma {:induction false} TrimJoin(argv: seq<string>)
    requires argv != [] && NulFree(argv)
    ensures TrimRight(Join(argv)) == Join(DropTrailingEmpty(argv))
  {
    var n := |argv| - 1;
    if n > 0 {
      JoinLast(argv);
      var front := Join(argv[..n]);
      if argv[n] == "" {
        assert Join(argv) == front + [NUL];
        assert (front + [NUL])[..|front|] == front;
        TrimJoin(argv[..n]);
      } else {
        assert Join(argv)[|Join(argv)| - 1] == argv[n][|argv[n]| - 1];
      }
    } else if argv[0] != "" {
      assert argv[0][|argv[0]| - 1] in argv[0];
    }
  }

  lemma {:induction false} SplitWord(a: string, rest: string)
    requires NUL !in a
    ensures Split(a + [NUL] + rest) == [a] + Split(rest)
  {
    var s := a + [NUL] + rest;
    if a == "" {
      assert s[1..] == rest;
    } else {
      assert s[1..] == a[1..] + [NUL] + rest;
      SplitWord(a[1..], rest);
      assert [a[0]] + a[1..] == a;
    }
  }

  lemma {:induction false} SplitOne(a: string)
    requires NUL !in a
    ensures Split(a) == [a]
  {
    if a == "" {
    } else {
      SplitOne(a[1..]);
      assert [a[0]] + a[1..] == a;
    }
  }

  lemma {:induction false} SplitJoin(argv: seq<string>)
    requires argv != [] && NulFree(argv)
    ensures Split(Join(argv)) == argv
  {
    if |argv| == 1 {
      SplitOne(argv[0]);
    } else {
      SplitWord(argv[0], Join(argv[1..]));
      SplitJoin(argv[1..]);
    }
  }

  lemma {:induction false} DropKeepsNulFree(argv: seq<string>)
    requires argv != [] && NulFree(argv)
    ensures NulFree(DropTrailingEmpty(argv))
    ensures DropTrailingEmpty(argv) == argv <==> |argv| == 1 || argv[|argv| - 1] != ""
    ensures |DropTrailingEmpty(argv)| <= |argv|
  {
    if |argv| > 1 && argv[|argv| - 1] == "" {
      DropKeepsNulFree(argv[..|argv| - 1]);
    }
  }

  /** Nothing is decoded from a file that cannot be read or is empty. */
  lemma NothingToDecode(raw: Option<string>)
    ensures CommandLine(raw).None? <==> raw == None || raw == Some("")
  {
  }

  lemma {:induction false} SplitParts(s: string)
    ensures NulFree(Split(s)) && Join(Split(s)) == s
  {
    if s == "" {
    } else {
      SplitParts(s[1..]);
      var rest, parts := Split(s[1..]), Split(s);
      if s[0] == NUL {
        assert parts[1..] == rest && s == [NUL] + s[1..];
      } else {
        assert parts[0] == [s[0]] + rest[0] && parts[1..] == rest[1..];
        assert forall i :: 0 < i < |parts| ==> parts[i] == rest[i];
        assert s == [s[0]] + s[1..];
      }
    }
  }

  lemma {:induction false} TrimSplits(s: string) returns (nuls: string)
    ensures s == TrimRight(s) + nuls && forall c :: c in nuls ==> c == NUL
    ensures TrimRight(s) == "" || TrimRight(s)[|TrimRight(s)| - 1] != NUL
  {
    nuls := "";
    if s != "" && s[|s| - 1] == NUL {
      var n := TrimSplits(s[..|s| - 1]);
      nuls := n + [NUL];
    }
  }

  /** Whatever a process has made of its command line, the decoded arguments contain no NUL and, with NULs between them and
      some at the end, are exactly the file; the last is empty only if it is the only one. */
  lemma DecodedArgv(raw: string) returns (nuls: string)
    requires raw != ""
    ensures var argv := CommandLine(Some(raw)).value;
            && argv != [] && NulFree(argv) && raw == Join(argv) + nuls && (forall c :: c in nuls ==> c == NUL)
            && (|argv| > 1 ==> argv[|argv| - 1] != "")
  {
    nuls := TrimSplits(raw);
    SplitParts(TrimRight(raw));
    var argv := Split(TrimRight(raw));
    if |argv| > 1 {
      JoinLast(argv);
    }
  }

  /** Decoding the kernel's encoding gives the arguments back, up to trailing empty ones; it gives exactly the
      arguments if and only if the last is not empty or the only one. */
  lemma {:induction false} ArgvRoundTrip(argv: seq<string>)
    requires argv != [] && NulFree(argv)
    ensures CommandLine(Some(Encode(argv))) == Some(DropTrailingEmpty(argv))
    ensures CommandLine(Some(Encode(argv))) == Some(argv) <==> |argv| == 1 || argv[|argv| - 1] != ""
  {
    EncodeIsJoin(argv);
    assert (Join(argv) + [NUL])[..|Join(argv)|] == Join(argv);
    TrimJoin(argv);
    DropKeepsNulFree(argv);
    SplitJoin(DropTrailingEmpty(argv));
  }
}
