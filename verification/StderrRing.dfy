// The last lines of a process's stderr, bounded in number and in bytes.
module StderrRing {

  // One code point in UTF-8, as section 3 of RFC 3629 has it.
  function EncodedChar(c: char): (bytes: seq<nat>)
    ensures 1 <= |bytes| <= 4
  {
    var code := c as int;
    if code < 0x80 then [code]
    else
      var high := code / 0x40;
      if code < 0x800 then [0xC0 + high, Continuation(code)]
      else if code < 0x1_0000 then [0xE0 + high / 0x40, Continuation(high), Continuation(code)]
      else [0xF0 + high / 0x40 / 0x40, Continuation(high / 0x40), Continuation(high), Continuation(code)]
  }

  // The last six bits, marked as a continuation.
  function Continuation(code: nat): (b: nat)
    ensures 0x80 <= b < 0xC0 && b % 0x40 == code % 0x40
  {
    0x80 + code % 0x40
  }

  function Encoded(line: string): seq<nat> {
    if line == "" then [] else EncodedChar(line[0]) + Encoded(line[1..])
  }

  function Utf8Len(line: string): nat { |Encoded(line)| }

  // The code point at the front of the bytes and the number of bytes it takes, by its leading byte.
  function DecodedFirst(bytes: seq<nat>): (int, nat)
    requires bytes != []
  {
    var b := bytes[0];
    var n := if b < 0x80 then 1 else if b < 0xE0 then 2 else if b < 0xF0 then 3 else 4;
    if |bytes| < n then (-1, n)
    else if n == 1 then (b, 1)
    else if n == 2 then (Joined(b % 0x20, bytes[1]), 2)
    else if n == 3 then (Joined(Joined(b % 0x10, bytes[1]), bytes[2]), 3)
    else (Joined(Joined(Joined(b % 0x08, bytes[1]), bytes[2]), bytes[3]), 4)
  }

  // Six more bits.
  function Joined(high: nat, b: nat): nat { high * 0x40 + b % 0x40 }

  lemma JoinedContinuation(code: nat)
    ensures Joined(code / 0x40, Continuation(code)) == code
  {
  }

  // The encoding of a line begins with that of its first character, which can be read back.
  lemma EncodingReadsBack(line: string)
    requires line != ""
    ensures var (code, n) := DecodedFirst(Encoded(line));
      code == line[0] as int && n <= |Encoded(line)| && Encoded(line)[n..] == Encoded(line[1..])
  {
    var first := EncodedChar(line[0]);
    assert Encoded(line)[..|first|] == first && Encoded(line)[|first|..] == Encoded(line[1..]);
    CharReadsBack(line[0], Encoded(line));
  }

  lemma CharReadsBack(c: char, bytes: seq<nat>)
    requires |EncodedChar(c)| <= |bytes| && bytes[..|EncodedChar(c)|] == EncodedChar(c)
    ensures DecodedFirst(bytes) == (c as int, |EncodedChar(c)|)
  {
    var code := c as int;
    var first := EncodedChar(c);
    assert forall i | 0 <= i < |first| :: bytes[..|first|][i] == first[i];
    var high := code / 0x40;
    JoinedContinuation(code);
    if 0x80 <= code {
      if code < 0x800 {
        LeadingBits(0x20, high);
      } else if code < 0x1_0000 {
        LeadingBits(0x10, high / 0x40);
        JoinedContinuation(high);
      } else {
        LeadingBits(0x08, high / 0x40 / 0x40);
        JoinedContinuation(high);
        JoinedContinuation(high / 0x40);
      }
    }
  }

  // The bits behind the mark of a leading byte.
  lemma LeadingBits(m: nat, high: nat)
    requires (m == 0x20 || m == 0x10 || m == 0x08) && high < m
    ensures (0x100 - 2 * m + high) % m == high
  {
    if m == 0x20 {
      assert 0x100 - 2 * m + high == 6 * 0x20 + high;
    } else if m == 0x10 {
      assert 0x100 - 2 * m + high == 14 * 0x10 + high;
    } else {
      assert 0x100 - 2 * m + high == 30 * 0x08 + high;
    }
  }

  // A kept line costs its bytes and a newline.
  function Cost(lines: seq<string>): nat {
    if lines == [] then 0 else Utf8Len(lines[0]) + 1 + Cost(lines[1..])
  }

  predicate Fits(lines: seq<string>, maxLines: int, maxBytes: int) {
    lines == [] || (|lines| <= maxLines && Cost(lines) <= maxBytes)
  }

  // The lines as bytes, each with its newline.
  function AsBytes(lines: seq<string>): seq<nat> {
    if lines == [] then [] else Encoded(lines[0]) + [0x0A] + AsBytes(lines[1..])
  }

  // The cost of the lines is the number of bytes they were read from.
  lemma {:induction false} CostCountsBytes(lines: seq<string>)
    ensures Cost(lines) == |AsBytes(lines)|
  {
    if lines != [] {
      CostCountsBytes(lines[1..]);
    }
  }

  // The longest suffix that fits.
  function Kept(lines: seq<string>, maxLines: int, maxBytes: int): seq<string> {
    if Fits(lines, maxLines, maxBytes) then lines else Kept(lines[1..], maxLines, maxBytes)
  }

  lemma {:induction false} CostAppend(a: seq<string>, b: seq<string>)
    ensures Cost(a + b) == Cost(a) + Cost(b)
  {
    if a == [] {
      assert a + b == b;
    } else {
      assert (a + b)[1..] == a[1..] + b;
      CostAppend(a[1..], b);
    }
  }

  // Kept is a suffix that fits, and every suffix that fits is no longer.
  lemma {:induction false} KeptIsLongestSuffix(lines: seq<string>, maxLines: int, maxBytes: int)
    ensures var kept := Kept(lines, maxLines, maxBytes);
      && |kept| <= |lines| && kept == lines[|lines| - |kept|..]
      && Fits(kept, maxLines, maxBytes)
      && forall i | 0 <= i < |lines| - |kept| :: !Fits(lines[i..], maxLines, maxBytes)
  {
    if !Fits(lines, maxLines, maxBytes) {
      KeptIsLongestSuffix(lines[1..], maxLines, maxBytes);
      var kept := Kept(lines, maxLines, maxBytes);
      forall i | 0 <= i < |lines| - |kept| ensures !Fits(lines[i..], maxLines, maxBytes) {
        if i > 0 {
          assert lines[i..] == lines[1..][i - 1..];
        }
      }
    }
  }

  // A line dropped once stays dropped: trimming as the lines come in keeps what trimming the whole
  // history would.
  lemma {:induction false} TrimmingAsYouGo(lines: seq<string>, line: string, maxLines: int, maxBytes: int)
    ensures Kept(Kept(lines, maxLines, maxBytes) + [line], maxLines, maxBytes)
         == Kept(lines + [line], maxLines, maxBytes)
  {
    if !Fits(lines, maxLines, maxBytes) {
      TrimmingAsYouGo(lines[1..], line, maxLines, maxBytes);
      CostAppend(lines, [line]);
      assert (lines + [line])[1..] == lines[1..] + [line];
    }
  }

  class StderrRingBuffer {
    var lines: seq<string>
    const maxLines: int
    const maxBytes: int
    var approxBytes: int
    ghost var history: seq<string>

    constructor (maxLines: int, maxBytes: int)
      ensures Valid() && history == [] && this.maxLines == maxLines && this.maxBytes == maxBytes
    {
      lines, this.maxLines, this.maxBytes, approxBytes, history := [], maxLines, maxBytes, 0, [];
    }

    // The ring is what the bounds leave of everything appended, and the counter is its cost.
    ghost predicate Valid()
      reads this
    {
      lines == Kept(history, maxLines, maxBytes) && approxBytes == Cost(lines)
    }

    method Append(line: string)
      requires Valid()
      modifies this
      ensures Valid() && history == old(history) + [line]
    {
      lines := lines + [line];
      approxBytes := approxBytes + Utf8Len(line) + 1;
      CostAppend(old(lines), [line]);
      TrimmingAsYouGo(history, line, maxLines, maxBytes);
      history := history + [line];
      Trim();
    }

    method Trim()
      requires approxBytes == Cost(lines)
      modifies this`lines, this`approxBytes
      ensures lines == Kept(old(lines), maxLines, maxBytes) && approxBytes == Cost(lines)
    {
      while lines != [] && (|lines| > maxLines || approxBytes > maxBytes)
        invariant approxBytes == Cost(lines)
        invariant Kept(lines, maxLines, maxBytes) == Kept(old(lines), maxLines, maxBytes)
        decreases |lines|
      {
        var oldest := lines[0];
        lines := lines[1..];
        approxBytes := approxBytes - (Utf8Len(oldest) + 1);
      }
    }

    method Snapshot() returns (kept: seq<string>)
      requires Valid()
      ensures |kept| <= |history| && kept == history[|history| - |kept|..]
      ensures kept == [] || (|kept| <= maxLines && |AsBytes(kept)| <= maxBytes)
      ensures forall i | 0 <= i < |history| - |kept| ::
        |history[i..]| > maxLines || |AsBytes(history[i..])| > maxBytes
    {
      KeptIsLongestSuffix(history, maxLines, maxBytes);
      CostCountsBytes(lines);
      forall i | 0 <= i < |history| - |lines| ensures |AsBytes(history[i..])| == Cost(history[i..]) {
        CostCountsBytes(history[i..]);
      }
      kept := lines;
    }
  }
}
