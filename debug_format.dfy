/** PacketNetwork::debugQByteArray: one line "\n<index>, 0x<hex>" per nonzero
    byte of the array, in index order; zero bytes produce nothing. */
module DebugFormat {
  import opened Types
  import opened Numbers

  /** The text appended for the nonzero byte `b` at index `i`. */
  function Line(i: nat, b: Byte): string
  {
    "\n" + Number(i, 10) + ", 0x" + Number(b, 16)
  }

  /** The text after the loop has looked at the first `n` bytes, when each
      nonzero byte is rendered by `line` (the loop itself uses Line). */
  function DebugPrefix(a: seq<Byte>, n: nat, line: (nat, Byte) -> string): string
    requires n <= |a|
  {
    if n == 0 then ""
    else DebugPrefix(a, n - 1, line) + (if a[n - 1] != 0 then line(n - 1, a[n - 1]) else "")
  }

  /** What debugQByteArray returns for `a`. */
  function DebugText(a: seq<Byte>): string
  {
    DebugPrefix(a, |a|, Line)
  }

  /** The (index, byte) pairs of the nonzero bytes below `n`, in index order. */
  function NonzeroEntries(a: seq<Byte>, n: nat): seq<(nat, Byte)>
    requires n <= |a|
  {
    if n == 0 then []
    else NonzeroEntries(a, n - 1) + (if a[n - 1] != 0 then [(n - 1, a[n - 1])] else [])
  }

  /** Every listed pair is a nonzero byte below `n` at its own index. */
  lemma {:induction false} NonzeroEntriesSound(a: seq<Byte>, n: nat)
    requires n <= |a|
    ensures forall j :: 0 <= j < |NonzeroEntries(a, n)| ==>
      var (i, b) := NonzeroEntries(a, n)[j]; i < n && a[i] == b && b != 0
  {
    if n > 0 {
      NonzeroEntriesSound(a, n - 1);
    }
  }

  /** Every nonzero byte below `n` is listed. */
  lemma {:induction false} NonzeroEntriesComplete(a: seq<Byte>, n: nat, i: nat)
    requires n <= |a|
    requires i < n && a[i] != 0
    ensures (i, a[i]) in NonzeroEntries(a, n)
  {
    var prev := NonzeroEntries(a, n - 1);
    NonzeroEntriesStep(a, n);
    if i < n - 1 {
      NonzeroEntriesComplete(a, n - 1, i);
      var k :| 0 <= k < |prev| && prev[k] == (i, a[i]);
      assert NonzeroEntries(a, n)[k] == (i, a[i]);
    } else {
      assert NonzeroEntries(a, n)[|prev|] == (i, a[i]);
    }
  }

  /** The listed indices are strictly increasing: the lines come out in index order. */
  lemma {:induction false} NonzeroEntriesIncreasing(a: seq<Byte>, n: nat)
    requires n <= |a|
    ensures forall j, k :: 0 <= j < k < |NonzeroEntries(a, n)| ==> NonzeroEntries(a, n)[j].0 < NonzeroEntries(a, n)[k].0
  {
    if n > 0 {
      NonzeroEntriesIncreasing(a, n - 1);
      NonzeroEntriesSound(a, n - 1);
    }
  }

  /** The lines for the given pairs, concatenated in the given order. */
  function JoinLines(entries: seq<(nat, Byte)>, line: (nat, Byte) -> string): string
  {
    if entries == [] then ""
    else JoinLines(entries[..|entries| - 1], line) + line(entries[|entries| - 1].0, entries[|entries| - 1].1)
  }

  lemma DebugPrefixStep(a: seq<Byte>, n: nat, line: (nat, Byte) -> string)
    requires 0 < n <= |a|
    ensures a[n - 1] == 0 ==> DebugPrefix(a, n, line) == DebugPrefix(a, n - 1, line)
    ensures a[n - 1] != 0 ==> DebugPrefix(a, n, line) == DebugPrefix(a, n - 1, line) + line(n - 1, a[n - 1])
  {
  }

  lemma NonzeroEntriesStep(a: seq<Byte>, n: nat)
    requires 0 < n <= |a|
    ensures a[n - 1] == 0 ==> NonzeroEntries(a, n) == NonzeroEntries(a, n - 1)
    ensures a[n - 1] != 0 ==> NonzeroEntries(a, n) == NonzeroEntries(a, n - 1) + [(n - 1, a[n - 1])]
  {
  }

  lemma JoinLinesSnoc(entries: seq<(nat, Byte)>, e: (nat, Byte), line: (nat, Byte) -> string)
    ensures JoinLines(entries + [e], line) == JoinLines(entries, line) + line(e.0, e.1)
  {
  }

  /** The loop's text is exactly the lines of the nonzero bytes, in index order. */
  lemma {:induction false} DebugPrefixIsNonzeroLines(a: seq<Byte>, n: nat, line: (nat, Byte) -> string)
    requires n <= |a|
    ensures DebugPrefix(a, n, line) == JoinLines(NonzeroEntries(a, n), line)
  {
    if n > 0 {
      DebugPrefixIsNonzeroLines(a, n - 1, line);
      DebugPrefixStep(a, n, line);
      NonzeroEntriesStep(a, n);
      if a[n - 1] != 0 {
        JoinLinesSnoc(NonzeroEntries(a, n - 1), (n - 1, a[n - 1]), line);
      }
    }
  }

  function CountChar(s: string, c: char): nat
  {
    if s == [] then 0 else (if s[0] == c then 1 else 0) + CountChar(s[1..], c)
  }

  lemma {:induction false} CountCharAppend(s: string, t: string, c: char)
    ensures CountChar(s + t, c) == CountChar(s, c) + CountChar(t, c)
  {
    if s == [] {
      assert s + t == t;
    } else {
      assert (s + t)[0] == s[0];
      assert (s + t)[1..] == s[1..] + t;
      CountCharAppend(s[1..], t, c);
    }
  }

  lemma {:induction false} NoNewlineInNumber(n: nat, base: nat)
    requires 2 <= base <= 16
    ensures CountChar(Number(n, base), '\n') == 0
  {
    var s := Number(n, base);
    var k := 0;
    while k < |s|
      invariant 0 <= k <= |s|
      invariant CountChar(s[|s| - k..], '\n') == 0
    {
      assert s[|s| - k - 1..][1..] == s[|s| - k..];
      assert s[|s| - k - 1] != '\n' by { assert IsDigitOf(s[|s| - k - 1], base); }
      k := k + 1;
    }
    assert s[|s| - k..] == s;
  }

  /** Each line holds exactly one line break, at its start. */
  lemma LineHasOneNewline(i: nat, b: Byte)
    ensures CountChar(Line(i, b), '\n') == 1
    ensures Line(i, b)[0] == '\n'
  {
    NoNewlineInNumber(i, 10);
    NoNewlineInNumber(b, 16);
    CountCharAppend("\n", Number(i, 10), '\n');
    CountCharAppend("\n" + Number(i, 10), ", 0x", '\n');
    CountCharAppend("\n" + Number(i, 10) + ", 0x", Number(b, 16), '\n');
  }

  /** The text has as many line breaks as the array has nonzero bytes, when
      every rendered line holds exactly one. */
  lemma {:induction false} DebugPrefixNewlines(a: seq<Byte>, n: nat, line: (nat, Byte) -> string)
    requires n <= |a|
    requires forall i, b :: CountChar(line(i, b), '\n') == 1
    ensures CountChar(DebugPrefix(a, n, line), '\n') == |NonzeroEntries(a, n)|
  {
    if n > 0 {
      DebugPrefixNewlines(a, n - 1, line);
      DebugPrefixStep(a, n, line);
      NonzeroEntriesStep(a, n);
      if a[n - 1] != 0 {
        CountCharAppend(DebugPrefix(a, n - 1, line), line(n - 1, a[n - 1]), '\n');
      }
    }
  }

  /** debugQByteArray's text has one line break per nonzero byte of its input. */
  lemma DebugTextNewlines(a: seq<Byte>)
    ensures CountChar(DebugText(a), '\n') == |NonzeroEntries(a, |a|)|
  {
    forall i: nat, b: Byte ensures CountChar(Line(i, b), '\n') == 1 {
      LineHasOneNewline(i, b);
    }
    DebugPrefixNewlines(a, |a|, Line);
  }

  /** Appending the pieces of a line one by one appends the line. */
  lemma AppendLine(s: string, i: nat, b: Byte)
    ensures s + "\n" + Number(i, 10) + ", 0x" + Number(b, 16) == s + Line(i, b)
  {
  }

  /** debugQByteArray: the indexed loop that builds the text. */
  method DebugQByteArray(debugArray: seq<Byte>) returns (outString: string)
    ensures outString == DebugText(debugArray)
    ensures outString == JoinLines(NonzeroEntries(debugArray, |debugArray|), Line)
  {
    outString := "";
    var i := 0;
    while i < |debugArray|
      invariant 0 <= i <= |debugArray|
      invariant outString == DebugPrefix(debugArray, i, Line)
    {
      if debugArray[i] != 0 {
        AppendLine(outString, i, debugArray[i]);
        outString := outString + "\n" + Number(i, 10) + ", 0x" + Number(debugArray[i], 16);
      }
      DebugPrefixStep(debugArray, i + 1, Line);
      i := i + 1;
    }
    DebugPrefixIsNonzeroLines(debugArray, |debugArray|, Line);
  }
}
