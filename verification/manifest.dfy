/** The mask-list manifest of the `set` mask mode: a text file read line by
    line, where each line names one mask file by the text before its first
    space once surrounding whitespace is stripped. */
module Manifest {
  import opened Values
  import opened Oracles
  import Paths

  /** The characters Python's `str.strip()` removes, within Latin-1: tab
      to carriage return, the four separators 0x1C-0x1F and space, NEL and
      no-break space. */
  predicate IsSpace(c: char)
  {
    ('\t' <= c <= '\r') || ('\U{1C}' <= c <= ' ') || c == '\U{85}' || c == '\U{A0}'
  }

  /** The end of the run of whitespace that starts at `from`. */
  function SpaceRunEnd(s: string, from: nat): (k: nat)
    requires from <= |s|
    ensures from <= k <= |s|
    ensures forall i :: from <= i < k ==> IsSpace(s[i])
    ensures k < |s| ==> !IsSpace(s[k])
    decreases |s| - from
  {
    if from < |s| && IsSpace(s[from]) then SpaceRunEnd(s, from + 1) else from
  }

  /** The start of the run of whitespace that ends just before `to`. */
  function SpaceRunStart(s: string, to: nat): (k: nat)
    requires to <= |s|
    ensures k <= to
    ensures forall i :: k <= i < to ==> IsSpace(s[i])
    ensures k > 0 ==> !IsSpace(s[k - 1])
  {
    if to > 0 && IsSpace(s[to - 1]) then SpaceRunStart(s, to - 1) else to
  }

  /** `s.lstrip()`: the longest suffix of `s` that does not start with whitespace. */
  function TrimLeft(s: string): (r: string)
    ensures |r| <= |s| && r == s[|s| - |r|..]
    ensures forall i :: 0 <= i < |s| - |r| ==> IsSpace(s[i])
    ensures r == [] || !IsSpace(r[0])
  {
    s[SpaceRunEnd(s, 0)..]
  }

  /** `s.rstrip()`: the longest prefix of `s` that does not end with whitespace. */
  function TrimRight(s: string): (r: string)
    ensures |r| <= |s| && r == s[..|r|]
    ensures forall i :: |r| <= i < |s| ==> IsSpace(s[i])
    ensures r == [] || !IsSpace(r[|r| - 1])
  {
    s[..SpaceRunStart(s, |s|)]
  }

  /** `s.strip()`: neither end of the result is whitespace; `StripIsSlice`
      says which slice of `s` it is. */
  function Strip(s: string): (r: string)
    ensures |r| <= |s|
    ensures r == [] || (!IsSpace(r[0]) && !IsSpace(r[|r| - 1]))
  {
    TrimRight(TrimLeft(s))
  }

  /** What `strip` removes is whitespace at either end and nothing else:
      the result is the slice of `s` between the leading and the trailing
      whitespace. */
  lemma StripIsSlice(s: string)
    ensures var lo := |s| - |TrimLeft(s)|;
            var r := Strip(s);
            && lo + |r| <= |s| && r == s[lo..lo + |r|]
            && (forall i :: 0 <= i < lo ==> IsSpace(s[i]))
            && (forall i :: lo + |r| <= i < |s| ==> IsSpace(s[i]))
  {
    TrimmedSlice(s, TrimLeft(s), Strip(s));
  }

  /** A prefix of a suffix of `s`, with only whitespace cut off either end,
      is a slice of `s` with only whitespace outside it. */
  lemma TrimmedSlice(s: string, left: string, r: string)
    requires |left| <= |s| && left == s[|s| - |left|..]
    requires forall i :: 0 <= i < |s| - |left| ==> IsSpace(s[i])
    requires |r| <= |left| && r == left[..|r|]
    requires forall i :: |r| <= i < |left| ==> IsSpace(left[i])
    ensures var lo := |s| - |left|;
            && lo + |r| <= |s| && r == s[lo..lo + |r|]
            && (forall i :: lo + |r| <= i < |s| ==> IsSpace(s[i]))
  {
    var lo := |s| - |left|;
    forall i | lo + |r| <= i < |s|
      ensures IsSpace(s[i])
    {
      assert s[i] == left[i - lo];
    }
  }

  /** `s.split(' ')[0]`: the text before the first space, or all of `s`. */
  function FirstToken(s: string): (r: string)
    ensures |r| <= |s| && r == s[..|r|]
    ensures forall i :: 0 <= i < |r| ==> r[i] != ' '
    ensures |r| < |s| ==> s[|r|] == ' '
  {
    if s == [] || s[0] == ' ' then [] else [s[0]] + FirstToken(s[1..])
  }

  /** The lines iterating over a text file yields: every line keeps its
      terminating '\n', a last line without one is still a line, and an
      empty file has none. */
  function Lines(s: string): (ls: seq<string>)
    ensures forall i :: 0 <= i < |ls| ==> |ls[i]| > 0
    ensures s != [] <==> ls != []
    decreases |s|
  {
    if s == [] then []
    else
      var rest := Lines(s[1..]);
      if s[0] == '\n' || rest == [] then [[s[0]]] + rest
      else [[s[0]] + rest[0]] + rest[1..]
  }

  function Concat(ls: seq<string>): string
  {
    if ls == [] then [] else ls[0] + Concat(ls[1..])
  }

  /** The number of '\n' characters in `s`. */
  function Newlines(s: string): nat
  {
    if s == [] then 0 else (if s[0] == '\n' then 1 else 0) + Newlines(s[1..])
  }

  /** The lines put back together are the file. */
  lemma {:induction false} LinesConcat(s: string)
    ensures Concat(Lines(s)) == s
    decreases |s|
  {
    if s != [] {
      var rest := Lines(s[1..]);
      LinesConcat(s[1..]);
      if s[0] == '\n' || rest == [] {
        assert Lines(s)[1..] == rest;
        if rest == [] {
          assert s[1..] == [];
        }
        assert s == [s[0]] + s[1..];
      } else {
        var ls := Lines(s);
        assert ls[1..] == rest[1..];
        assert Concat(rest) == rest[0] + Concat(rest[1..]);
        assert Concat(ls) == [s[0]] + rest[0] + Concat(rest[1..]);
        assert s == [s[0]] + s[1..];
      }
    }
  }

  /** Every line but the last ends with '\n', and no line holds a '\n'
      anywhere else. */
  predicate WellFormedLines(ls: seq<string>)
  {
    forall i :: 0 <= i < |ls| ==>
      && (forall j :: 0 <= j < |ls[i]| - 1 ==> ls[i][j] != '\n')
      && (i < |ls| - 1 ==> |ls[i]| > 0 && ls[i][|ls[i]| - 1] == '\n')
  }

  /** A line with no inner '\n', ending in '\n' unless it is the last,
      keeps a well-formed list of lines well formed. */
  lemma PrependLine(line: string, rest: seq<string>)
    requires WellFormedLines(rest)
    requires forall j :: 0 <= j < |line| - 1 ==> line[j] != '\n'
    requires rest != [] ==> |line| > 0 && line[|line| - 1] == '\n'
    ensures WellFormedLines([line] + rest)
  {
    var ls := [line] + rest;
    forall i | 1 <= i < |ls|
      ensures ls[i] == rest[i - 1]
    {
    }
  }

  /** Putting a character other than '\n' in front of the first line keeps
      the lines well formed. */
  lemma ExtendFirstLine(c: char, rest: seq<string>)
    requires WellFormedLines(rest) && rest != [] && c != '\n'
    ensures WellFormedLines([[c] + rest[0]] + rest[1..])
  {
    var first := [c] + rest[0];
    assert forall j :: 1 <= j < |first| ==> first[j] == rest[0][j - 1];
    assert |rest| > 1 ==> first[|first| - 1] == rest[0][|rest[0]| - 1];
    PrependLine(first, rest[1..]);
  }

  /** The lines of a file are well formed. */
  lemma {:induction false} LinesWellFormed(s: string)
    ensures WellFormedLines(Lines(s))
    decreases |s|
  {
    if s != [] {
      var rest := Lines(s[1..]);
      assert WellFormedLines(rest) by {
        LinesWellFormed(s[1..]);
      }
      if s[0] == '\n' || rest == [] {
        PrependLine([s[0]], rest);
      } else {
        ExtendFirstLine(s[0], rest);
      }
    }
  }

  /** One line per '\n', plus one for a last line without it; so blank
      lines count like any other. */
  lemma {:induction false} LinesCount(s: string)
    ensures |Lines(s)| == Newlines(s) + (if s != [] && s[|s| - 1] != '\n' then 1 else 0)
    decreases |s|
  {
    if s != [] {
      LinesCount(s[1..]);
      if |s| > 1 {
        assert s[1..][|s| - 2] == s[|s| - 1];
      }
    }
  }

  /** The mask path one manifest line contributes:
      `Path(prefix).joinpath(line.strip().split(' ')[0])`. */
  function Entry(prefix: string, line: string): string
  {
    Paths.Join(prefix, FirstToken(Strip(line)))
  }

  /** A blank line still names a mask: the prefix itself. */
  lemma BlankLineEntry(prefix: string, line: string)
    requires forall i :: 0 <= i < |line| ==> IsSpace(line[i])
    ensures Entry(prefix, line) == prefix
  {
  }

  /** The loop of `LoadMask._init_info`: one entry per line, in file order;
      `prefix` is looked up (and must be a str or a path) at each line, so a
      manifest with no lines never reads it. */
  method ReadMaskList(config: Config, text: string) returns (r: Result<seq<string>, Error>)
    ensures Lines(text) == [] ==> r == Ok([])
    ensures Lines(text) != [] && "prefix" !in config ==> r == Err(MissingKey("prefix"))
    ensures Lines(text) != [] && "prefix" in config && PathText(config["prefix"]).Err? ==>
              r == Err(PathText(config["prefix"]).error)
    ensures r.Ok? <==> Lines(text) == [] || ("prefix" in config && PathText(config["prefix"]).Ok?)
    ensures r.Ok? ==>
              && |r.value| == |Lines(text)|
              && forall i :: 0 <= i < |r.value| ==>
                   r.value[i] == Entry(PathText(config["prefix"]).value, Lines(text)[i])
  {
    var lines := Lines(text);
    if lines == [] {
      return Ok([]);
    }
    // The configuration does not change inside the loop, so every line's
    // lookup of 'prefix' has the outcome of the first one.
    if "prefix" !in config {
      return Err(MissingKey("prefix"));
    }
    var prefixText := PathText(config["prefix"]);
    if prefixText.Err? {
      return Err(prefixText.error);
    }
    var prefix := prefixText.value;
    var masks: seq<string> := [];
    var i := 0;
    while i < |lines|
      invariant 0 <= i <= |lines|
      invariant |masks| == i
      invariant forall j :: 0 <= j < i ==> masks[j] == Entry(prefix, lines[j])
    {
      var name := FirstToken(Strip(lines[i]));
      masks := masks + [Paths.Join(prefix, name)];
      i := i + 1;
    }
    r := Ok(masks);
  }
}
