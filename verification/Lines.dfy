/** Text as lines. */
module Lines {
  predicate IsSpace(c: char) {
    || c == ' ' || '\t' <= c <= '\r' || c == '\U{85}' || c == '\U{A0}' || c == '\U{1680}'
    || '\U{2000}' <= c <= '\U{200A}' || c == '\U{2028}' || c == '\U{2029}' || c == '\U{202F}' || c == '\U{205F}'
    || c == '\U{3000}'
  }

  function TrimLeft(s: string): string {
    if s != "" && IsSpace(s[0]) then TrimLeft(s[1..]) else s
  }

  function TrimRight(s: string): string {
    if s != "" && IsSpace(s[|s| - 1]) then TrimRight(s[..|s| - 1]) else s
  }

  function TrimSpace(s: string): string {
    TrimRight(TrimLeft(s))
  }

  predicate Blank(line: string) {
    TrimSpace(line) == ""
  }

  /** There is always a line, if only an empty one. */
  function Split(s: string): (lines: seq<string>)
    ensures |lines| >= 1 && forall l :: l in lines ==> '\n' !in l
  {
    if s == "" then [""]
    else if s[0] == '\n' then [""] + Split(s[1..])
    else
      var rest := Split(s[1..]);
      [[s[0]] + rest[0]] + rest[1..]
  }

  function Join(lines: seq<string>): string {
    if lines == [] then "" else if |lines| == 1 then lines[0] else lines[0] + "\n" + Join(lines[1..])
  }

  lemma {:induction false} JoinOfSplit(s: string)
    ensures Join(Split(s)) == s
  {
    if s != "" {
      JoinOfSplit(s[1..]);
      var rest := Split(s[1..]);
      if s[0] == '\n' {
        assert ([""] + rest)[1..] == rest;
      } else {
        assert ([[s[0]] + rest[0]] + rest[1..])[1..] == rest[1..];
        if |rest| > 1 {
          assert Join(rest) == rest[0] + "\n" + Join(rest[1..]);
        }
      }
    }
  }

  /** Splitting takes a newline for what it is between two texts. */
  lemma {:induction false} SplitAround(a: string, b: string)
    ensures Split(a + "\n" + b) == Split(a) + Split(b)
  {
    var s := a + "\n" + b;
    if a == "" {
      assert s[1..] == b;
    } else {
      assert s[1..] == a[1..] + "\n" + b;
      SplitAround(a[1..], b);
    }
  }

  lemma {:induction false} SplitLine(line: string)
    requires '\n' !in line
    ensures Split(line) == [line]
  {
    if line != "" {
      SplitLine(line[1..]);
      assert line[0] in line && line == [line[0]] + line[1..];
    }
  }

  lemma {:induction false} SplitOfJoin(lines: seq<string>)
    requires lines != [] && forall l :: l in lines ==> '\n' !in l
    ensures Split(Join(lines)) == lines
  {
    SplitLine(lines[0]);
    if |lines| > 1 {
      SplitOfJoin(lines[1..]);
      SplitAround(lines[0], Join(lines[1..]));
    }
  }

  /** The index of the first line from `from` on that is not blank. */
  function SkipBlank(lines: seq<string>, from: nat): (index: nat)
    requires from <= |lines|
    ensures from <= index <= |lines|
    ensures forall k :: from <= k < index ==> Blank(lines[k])
    ensures index < |lines| ==> !Blank(lines[index])
    decreases |lines| - from
  {
    if from < |lines| && Blank(lines[from]) then SkipBlank(lines, from + 1) else from
  }

  /** The text after some leading lines and the blank lines that follow them. */
  function Remainder(lines: seq<string>, from: nat): string
    requires from <= |lines|
  {
    Join(lines[SkipBlank(lines, from)..])
  }

  method SkipBlankLines(lines: seq<string>, from: nat) returns (index: nat)
    requires from <= |lines|
    ensures index == SkipBlank(lines, from)
  {
    index := from;
    while index < |lines| && Blank(lines[index])
      invariant from <= index <= |lines|
      invariant SkipBlank(lines, index) == SkipBlank(lines, from)
    {
      index := index + 1;
    }
  }

  /** A text is empty or begins with a line that is not blank. */
  predicate BeginsFull(s: string) {
    s == "" || !Blank(Split(s)[0])
  }

  lemma {:induction false} JoinIsShorter(lines: seq<string>, from: nat)
    requires 0 < from <= |lines|
    ensures |Join(lines[from..])| < |Join(lines)| || (from == |lines| == 1 && lines[0] == "")
  {
    if |lines| > 1 {
      if from == 1 {
        assert |Join(lines)| > |Join(lines[1..])|;
      } else {
        JoinIsShorter(lines[1..], from - 1);
        assert lines[1..][from - 1..] == lines[from..];
      }
    }
  }

  /** Behind some lines, a text is found again exactly when it begins full. */
  lemma RemainderIff(head: seq<string>, body: string)
    ensures Remainder(head + Split(body), |head|) == body <==> BeginsFull(body)
  {
    var rest, lines := Split(body), head + Split(body);
    var index := SkipBlank(lines, |head|);
    assert lines[|head|] == rest[0];
    assert lines[index..] == rest[index - |head|..];
    JoinOfSplit(body);
    if Blank(rest[0]) {
      JoinIsShorter(rest, index - |head|);
    } else {
      assert rest[0..] == rest;
    }
  }

  /** What follows some lines and blanks begins full. */
  lemma RemainderBeginsFull(lines: seq<string>, from: nat)
    requires from <= |lines| && forall l :: l in lines ==> '\n' !in l
    ensures BeginsFull(Remainder(lines, from))
  {
    var index := SkipBlank(lines, from);
    if index < |lines| {
      SplitOfJoin(lines[index..]);
    }
  }
}
