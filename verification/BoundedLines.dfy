/** The bounded JSONL readers of the Codex and Claude executors.

    A reader sees the byte stream only through the chunks that its buffer hands
    out, one `fill_buf` at a time. The specification speaks of the stream alone:
    Lines(s) is its newline split. The Codex reader is a function of the stream;
    the Claude reader, which returns a line before it checks the bound, is not,
    and its exact failing condition is about the chunks. */
module BoundedLines {
  import opened Outcomes

  newtype byte = x: int | 0 <= x < 256

  const NEWLINE: byte := 10

  datatype ReadError = LineTooLong

  type Line = seq<byte>

  // ---------- The stream, without its chunks ----------

  function NewlineAt(s: seq<byte>): (i: nat)
    ensures i <= |s|
    ensures forall k :: 0 <= k < i ==> s[k] != NEWLINE
    ensures i < |s| ==> s[i] == NEWLINE
  {
    if s == [] || s[0] == NEWLINE then 0 else 1 + NewlineAt(s[1..])
  }

  predicate Newlineless(line: Line) {
    forall k :: 0 <= k < |line| ==> line[k] != NEWLINE
  }

  /** The next line of the stream, without its newline. */
  function Piece(s: seq<byte>): Line { s[..NewlineAt(s)] }

  function Rest(s: seq<byte>): seq<byte> {
    if NewlineAt(s) < |s| then s[NewlineAt(s) + 1..] else []
  }

  function Lines(s: seq<byte>): seq<Line>
    decreases |s|
  {
    if s == [] then [] else [Piece(s)] + Lines(Rest(s))
  }

  /** Every line followed by its newline: what a peer that ends each record writes. */
  function Join(lines: seq<Line>): seq<byte> {
    if lines == [] then [] else lines[0] + [NEWLINE] + Join(lines[1..])
  }

  lemma NewlineAtIsFirst(s: seq<byte>, i: nat)
    requires i <= |s|
    requires forall k :: 0 <= k < i ==> s[k] != NEWLINE
    requires i < |s| ==> s[i] == NEWLINE
    ensures NewlineAt(s) == i
  {
  }

  lemma SplitAtNewline(line: Line, rest: seq<byte>)
    requires Newlineless(line)
    ensures Piece(line + [NEWLINE] + rest) == line
    ensures Rest(line + [NEWLINE] + rest) == rest
  {
    var s := line + [NEWLINE] + rest;
    assert s[..|line|] == line;
    NewlineAtIsFirst(s, |line|);
    assert s[|line| + 1..] == rest;
  }

  lemma UnfinishedLine(line: Line)
    requires Newlineless(line)
    ensures Piece(line) == line && Rest(line) == []
  {
    assert line[..|line|] == line;
    NewlineAtIsFirst(line, |line|);
  }

  /** The stream, completed by the newline that a stream cut off in mid-line lacks. */
  function Terminated(s: seq<byte>): seq<byte> {
    if s == [] || s[|s| - 1] == NEWLINE then s else s + [NEWLINE]
  }

  lemma TerminatedAfterLine(line: Line, rest: seq<byte>)
    ensures Terminated(line + [NEWLINE] + rest) == line + [NEWLINE] + Terminated(rest)
  {
    var s := line + [NEWLINE] + rest;
    if rest == [] {
      assert s == line + [NEWLINE];
    } else {
      assert s[|s| - 1] == rest[|rest| - 1];
      assert line + [NEWLINE] + (rest + [NEWLINE]) == s + [NEWLINE];
    }
  }

  lemma {:induction false} LinesStep(s: seq<byte>)
    requires s != []
    ensures Lines(s) != [] && Lines(s)[0] == Piece(s) && Lines(s)[1..] == Lines(Rest(s))
    ensures NewlineAt(s) < |s| ==> s == Piece(s) + [NEWLINE] + Rest(s)
    ensures NewlineAt(s) == |s| ==> Piece(s) == s && Rest(s) == [] && Terminated(s) == s + [NEWLINE]
  {
    var i := NewlineAt(s);
    if i < |s| {
      assert s == s[..i] + [s[i]] + s[i + 1..];
    } else {
      assert s[..|s|] == s;
    }
  }

  lemma {:induction false} TakeOneLine(before: seq<Line>, s: seq<byte>)
    requires s != []
    ensures before + Lines(s) == before + [Piece(s)] + Lines(Rest(s))
    ensures (before + Lines(s))[|before|] == Piece(s)
  {
    LinesStep(s);
    var ls := Lines(s);
    assert ls == [ls[0]] + ls[1..];
  }

  /** Splitting loses nothing: joining the lines gives the completed stream back. */
  lemma {:induction false} JoinOfLines(s: seq<byte>)
    ensures Join(Lines(s)) == Terminated(s)
    decreases |s|
  {
    if s != [] {
      LinesStep(s);
      JoinOfLines(Rest(s));
      if NewlineAt(s) < |s| { TerminatedAfterLine(Piece(s), Rest(s)); }
    }
  }

  /** Splitting invents nothing: records without a newline come back as they were sent. */
  lemma {:induction false} LinesOfJoin(lines: seq<Line>)
    requires forall k :: 0 <= k < |lines| ==> Newlineless(lines[k])
    ensures Lines(Join(lines)) == lines
  {
    if lines != [] {
      SplitAtNewline(lines[0], Join(lines[1..]));
      LinesOfJoin(lines[1..]);
    }
  }

  // ---------- The stream, as chunks ----------

  function Flatten(chunks: seq<seq<byte>>): seq<byte> {
    if chunks == [] then [] else chunks[0] + Flatten(chunks[1..])
  }

  /** How many bytes arrive in whole chunks before the chunk that holds the newline. */
  function LeadingBytes(chunks: seq<seq<byte>>): nat {
    if chunks == [] || !Newlineless(chunks[0]) then 0
    else |chunks[0]| + LeadingBytes(chunks[1..])
  }

  lemma NewlineInHead(head: seq<byte>, tail: seq<byte>)
    ensures !Newlineless(head) ==> NewlineAt(head + tail) == NewlineAt(head) < |head|
    ensures Newlineless(head) ==> NewlineAt(head + tail) == |head| + NewlineAt(tail)
    ensures Newlineless(head) ==> |Piece(head + tail)| >= |head|
  {
    var s := head + tail;
    if !Newlineless(head) {
      var i := NewlineAt(head);
      NewlineAtIsFirst(s, i);
    } else {
      var i := |head| + NewlineAt(tail);
      NewlineAtIsFirst(s, i);
    }
  }

  lemma Regroup(output: Line, available: seq<byte>, position: nat, later: seq<byte>)
    requires position <= |available|
    ensures position == |available| ==>
              output + (available + later) == output + available[..position] + later
    ensures position < |available| && available[position] == NEWLINE ==>
              output + (available + later)
                 == output + available[..position] + [NEWLINE] + (available[position + 1..] + later)
  {
    if position < |available| && available[position] == NEWLINE {
      assert available == available[..position] + [NEWLINE] + available[position + 1..];
    }
  }

  /** The newline chunk adds fewer bytes than it holds. */
  lemma {:induction false} LeadingBytesBoundPiece(chunks: seq<seq<byte>>, largest: nat)
    requires forall k :: 0 <= k < |chunks| ==> 0 < |chunks[k]| <= largest
    ensures LeadingBytes(chunks) <= |Piece(Flatten(chunks))|
    ensures chunks != [] ==> |Piece(Flatten(chunks))| < LeadingBytes(chunks) + largest
  {
    if chunks != [] {
      NewlineInHead(chunks[0], Flatten(chunks[1..]));
      LeadingBytesBoundPiece(chunks[1..], largest);
    }
  }

  /** The buffered pipe: the chunks that successive `fill_buf` calls will return.
      `fill_buf` answers an empty slice at end of stream and nowhere else. */
  class ChunkedReader {
    var chunks: seq<seq<byte>>

    constructor (chunks: seq<seq<byte>>)
      ensures this.chunks == chunks
    {
      this.chunks := chunks;
    }

    ghost predicate Valid()
      reads this
    {
      forall k :: 0 <= k < |chunks| ==> chunks[k] != []
    }

    ghost function Stream(): seq<byte>
      reads this
    {
      Flatten(chunks)
    }

    method Consume(count: nat)
      requires Valid()
      requires chunks != [] && count <= |chunks[0]|
      modifies this
      ensures Valid()
      ensures chunks == if count == |old(chunks)[0]| then old(chunks)[1..]
                        else [old(chunks)[0][count..]] + old(chunks)[1..]
      ensures Stream() == old(chunks)[0][count..] + Flatten(old(chunks)[1..])
    {
      if count == |chunks[0]| {
        chunks := chunks[1..];
      } else {
        chunks := [chunks[0][count..]] + chunks[1..];
        assert chunks[1..] == old(chunks)[1..];
      }
    }

    /** The step both readers share: append what the buffer offers, up to the newline. */
    method TakeAvailable(output: Line) returns (extended: Line, found: bool)
      requires Valid() && chunks != [] && Newlineless(output)
      modifies this
      ensures Valid() && Newlineless(extended)
      ensures |Stream()| < |old(Stream())|
      ensures found <==> !Newlineless(old(chunks)[0])
      ensures found ==> output + old(Stream()) == extended + [NEWLINE] + Stream()
      ensures !found ==> output + old(Stream()) == extended + Stream()
      ensures !found ==> extended == output + old(chunks)[0] && chunks == old(chunks)[1..]
    {
      var available := chunks[0];
      ghost var later := Flatten(chunks[1..]);
      var position := NewlineAt(available);
      found := position < |available|;
      Consume(if found then position + 1 else position);
      extended := output + available[..position];
      Regroup(output, available, position, later);
    }

    /** Codex: the bound is checked after every chunk, before a line is returned. */
    method ReadCodexLine(maxBytes: nat) returns (r: Result<Option<Line>, ReadError>)
      requires Valid()
      modifies this
      ensures Valid()
      ensures r.Err? <==> |Piece(old(Stream()))| > maxBytes
      ensures r.Ok? ==>
                && r.value == (if old(Stream()) == [] then None else Some(Piece(old(Stream()))))
                && Stream() == Rest(old(Stream()))
    {
      ghost var stream := Stream();
      var output: Line := [];
      while true
        invariant Valid()
        invariant Newlineless(output) && |output| <= maxBytes
        invariant stream == output + Flatten(chunks)
        decreases |Flatten(chunks)|
      {
        if chunks == [] {
          assert stream == output;
          UnfinishedLine(output);
          return Ok(if output == [] then None else Some(output));
        }
        var foundNewline;
        output, foundNewline := TakeAvailable(output);
        if foundNewline {
          SplitAtNewline(output, Flatten(chunks));
        } else {
          NewlineInHead(output, Flatten(chunks));
        }
        if |output| > maxBytes {
          return Err(LineTooLong);
        }
        if foundNewline {
          return Ok(Some(output));
        }
      }
    }

    /** Claude: a line whose newline has arrived is returned unchecked, so only
        the whole chunks before it count against the bound. */
    method ReadClaudeLine(maxBytes: nat) returns (r: Result<Option<Line>, ReadError>)
      requires Valid()
      modifies this
      ensures Valid()
      ensures r.Err? <==> LeadingBytes(old(chunks)) > maxBytes
      ensures r.Ok? ==>
                && r.value == (if old(Stream()) == [] then None else Some(Piece(old(Stream()))))
                && Stream() == Rest(old(Stream()))
    {
      ghost var stream := Stream();
      var output: Line := [];
      while true
        invariant Valid()
        invariant Newlineless(output) && |output| <= maxBytes
        invariant stream == output + Flatten(chunks)
        invariant LeadingBytes(old(chunks)) == |output| + LeadingBytes(chunks)
        decreases |Flatten(chunks)|
      {
        if chunks == [] {
          assert stream == output;
          UnfinishedLine(output);
          return Ok(if output == [] then None else Some(output));
        }
        var found;
        output, found := TakeAvailable(output);
        if found {
          SplitAtNewline(output, Flatten(chunks));
          return Ok(Some(output));
        }
        if |output| > maxBytes {
          return Err(LineTooLong);
        }
      }
    }

    /** The executors' read loop: lines until end of stream or the first failure. */
    method ReadAllCodexLines(maxBytes: nat) returns (lines: seq<Line>, failed: bool)
      requires Valid()
      modifies this
      ensures lines <= Lines(old(Stream()))
      ensures forall k :: 0 <= k < |lines| ==> |lines[k]| <= maxBytes
      ensures !failed ==> lines == Lines(old(Stream()))
      ensures failed ==> |lines| < |Lines(old(Stream()))| && |Lines(old(Stream()))[|lines|]| > maxBytes
    {
      lines, failed := [], false;
      while true
        invariant Valid()
        invariant Lines(old(Stream())) == lines + Lines(Stream())
        invariant forall k :: 0 <= k < |lines| ==> |lines[k]| <= maxBytes
        decreases |Stream()|
      {
        ghost var rest := Stream();
        if rest != [] { TakeOneLine(lines, rest); }
        var r := ReadCodexLine(maxBytes);
        match r {
          case Err(_) =>
            failed := true;
            return;
          case Ok(None) =>
            return;
          case Ok(Some(line)) =>
            lines := lines + [line];
        }
      }
    }
  }

  // ---------- Comparing the two readers ----------

  /** What the Claude reader may return beyond its bound, and what it cannot: it
      fails only on lines the Codex reader refuses too, and a line it returns is
      shorter than the bound plus the largest chunk. */
  lemma ClaudeBound(chunks: seq<seq<byte>>, largest: nat, maxBytes: nat)
    requires forall k :: 0 <= k < |chunks| ==> 0 < |chunks[k]| <= largest
    ensures LeadingBytes(chunks) > maxBytes ==> |Piece(Flatten(chunks))| > maxBytes
    ensures chunks != [] && LeadingBytes(chunks) <= maxBytes ==> |Piece(Flatten(chunks))| < maxBytes + largest
  {
    LeadingBytesBoundPiece(chunks, largest);
  }

  /** One stream, two chunkings, two answers: the Claude bound depends on arrival. */
  lemma ClaudeDependsOnChunking()
    ensures Flatten([[1, 2, NEWLINE]]) == Flatten([[1, 2], [NEWLINE]])
    ensures !(LeadingBytes([[1, 2, NEWLINE]]) > 1) && LeadingBytes([[1, 2], [NEWLINE]]) > 1
  {
    var one: seq<seq<byte>> := [[1, 2, NEWLINE]];
    var two: seq<seq<byte>> := [[1, 2], [NEWLINE]];
    assert one[1..] == [] && two[1..] == [[NEWLINE]] && two[1..][1..] == [];
    assert Flatten(two[1..]) == [NEWLINE];
    assert Flatten(one) == [1, 2, NEWLINE] == Flatten(two);
    assert one[0][2] == NEWLINE;
  }
}
