/** The bounded stderr tail: text is appended as it arrives and trimmed to a byte
    cap at a character boundary after every append. */
module StderrTail {

  /** Encoded width of a character: the four rows of section 3 of RFC 3629. */
  function Width(c: char): (w: nat)
    ensures 1 <= w <= 4
  {
    if c < 0x80 as char then 1
    else if c < 0x800 as char then 2
    else if c as int < 0x10000 then 3
    else 4
  }

  /** The largest code, and one, that so many bytes carry: 7, 11, 16 and 21 bits. */
  function Capacity(bytes: nat): int
    requires 1 <= bytes <= 4
  {
    if bytes == 1 then 128 else if bytes == 2 then 2048 else if bytes == 3 then 65536 else 2097152
  }

  /** A character takes the fewest bytes that carry its code. */
  lemma WidthIsLeast(c: char, w: nat)
    requires 1 <= w <= 4
    ensures c as int < Capacity(w) <==> Width(c) <= w
  {
  }

  function Bytes(s: string): nat {
    if s == [] then 0 else Width(s[0]) + Bytes(s[1..])
  }

  lemma {:induction false} BytesOfConcat(a: string, b: string)
    ensures Bytes(a + b) == Bytes(a) + Bytes(b)
  {
    if a == [] {
      assert a + b == b;
    } else {
      BytesOfConcat(a[1..], b);
      assert (a + b)[1..] == a[1..] + b;
    }
  }

  /** t is the longest suffix of s, cut at a character boundary, that fits the cap. */
  ghost predicate IsLongestFittingSuffix(t: string, s: string, cap: nat) {
    && |t| <= |s| && t == s[|s| - |t|..]
    && Bytes(t) <= cap
    && forall k :: 0 <= k < |s| - |t| ==> Bytes(s[k..]) > cap
  }

  /** Trimming once, with the whole stream at hand. */
  ghost function Tail(s: string, cap: nat): string {
    if Bytes(s) <= cap then s else Tail(s[1..], cap)
  }

  lemma {:induction false} TailIsLongest(s: string, cap: nat)
    ensures IsLongestFittingSuffix(Tail(s, cap), s, cap)
  {
    if Bytes(s) > cap {
      TailIsLongest(s[1..], cap);
      var t := Tail(s, cap);
      forall k | 0 <= k < |s| - |t| ensures Bytes(s[k..]) > cap {
        if k == 0 { assert s[0..] == s; } else { assert s[k..] == s[1..][k - 1..]; }
      }
    }
  }

  lemma {:induction false} LongestIsUnique(t: string, s: string, cap: nat)
    requires IsLongestFittingSuffix(t, s, cap)
    ensures t == Tail(s, cap)
  {
    if Bytes(s) > cap {
      assert s[0..] == s;
      forall k | 0 <= k < |s| - 1 - |t| ensures Bytes(s[1..][k..]) > cap {
        assert s[1..][k..] == s[k + 1..];
      }
      assert s[1..][|s| - 1 - |t|..] == t;
      LongestIsUnique(t, s[1..], cap);
    } else {
      assert s[0..] == s;
      assert 0 >= |s| - |t|;
    }
  }

  /** What an earlier trim dropped, a later trim would have dropped too. */
  lemma {:induction false} TrimEarlyTrimLate(a: string, b: string, cap: nat)
    ensures Tail(Tail(a, cap) + b, cap) == Tail(a + b, cap)
  {
    if Bytes(a) > cap {
      BytesOfConcat(a, b);
      assert (a + b)[1..] == a[1..] + b;
      TrimEarlyTrimLate(a[1..], b, cap);
    }
  }

  function Concat(texts: seq<string>): string {
    if texts == [] then [] else Concat(texts[..|texts| - 1]) + texts[|texts| - 1]
  }

  /** The shared buffer the drain task appends to. */
  class StderrBuffer {
    const cap: nat
    var tail: string

    constructor (cap: nat)
      ensures this.cap == cap && tail == []
    {
      this.cap := cap;
      tail := [];
    }

    /** push_str, then drain up to the first character index at or past the excess. */
    method Append(text: string)
      modifies this`tail
      ensures tail == Tail(old(tail) + text, cap)
    {
      tail := tail + text;
      var total := TotalBytes(tail);
      if total > cap {
        var excess := total - cap;
        var cut, index := 0, 0;
        while cut < |tail| && index < excess
          invariant cut <= |tail|
          invariant index + Bytes(tail[cut..]) == total
          invariant Tail(tail, cap) == Tail(tail[cut..], cap)
        {
          assert tail[cut..][1..] == tail[cut + 1..];
          index := index + Width(tail[cut]);
          cut := cut + 1;
        }
        tail := tail[cut..];
      }
    }

    static method TotalBytes(s: string) returns (total: nat)
      ensures total == Bytes(s)
    {
      total := 0;
      for i := 0 to |s|
        invariant total + Bytes(s[i..]) == Bytes(s)
      {
        assert s[i..][1..] == s[i + 1..];
        total := total + Width(s[i]);
      }
    }

    /** Trimming as the text arrives is trimming once at the end. */
    method Drain(texts: seq<string>)
      requires tail == []
      modifies this`tail
      ensures tail == Tail(Concat(texts), cap)
      ensures IsLongestFittingSuffix(tail, Concat(texts), cap)
    {
      for i := 0 to |texts|
        invariant tail == Tail(Concat(texts[..i]), cap)
      {
        ghost var before := Concat(texts[..i]);
        Append(texts[i]);
        assert texts[..i + 1][..i] == texts[..i];
        TrimEarlyTrimLate(before, texts[i], cap);
      }
      assert texts[..|texts|] == texts;
      TailIsLongest(Concat(texts), cap);
    }
  }
}
