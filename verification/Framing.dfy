// Newline framing: envelopes as JSON lines on a byte stream that arrives in arbitrary chunks.
module Framing {
  import opened Basics

  type Byte = b: int | 0 <= b < 256

  const NEWLINE: Byte := 10

  const MAX_MESSAGE_BYTES: nat := 0x10_0000

  // The JSON body codec; `parse` yields None for bytes that are no valid envelope.
  datatype Codec<!E> = Codec(body: E -> seq<Byte>, parse: seq<Byte> -> Option<E>)

  // ---- Reading a line ----

  datatype Read = Line(bytes: seq<Byte>) | Incomplete(partial: seq<Byte>) | Overrun

  // Index of the first newline, or the length when there is none.
  function FirstNewline(bytes: seq<Byte>): (n: nat)
    ensures n <= |bytes| && NEWLINE !in bytes[..n] && (n < |bytes| ==> bytes[n] == NEWLINE)
  {
    if bytes == [] || bytes[0] == NEWLINE then 0 else 1 + FirstNewline(bytes[1..])
  }

  // What one `readuntil` gives on everything the stream will ever hold, and what it leaves.
  function ReadLine(bytes: seq<Byte>, limit: nat): (Read, seq<Byte>) {
    var n := FirstNewline(bytes);
    if n > limit then (Overrun, bytes)
    else if n < |bytes| then (Line(bytes[..n + 1]), bytes[n + 1..])
    else (Incomplete(bytes), [])
  }

  function Joined(chunks: seq<seq<Byte>>): seq<Byte> {
    if chunks == [] then [] else chunks[0] + Joined(chunks[1..])
  }

  lemma {:induction false} FirstNewlineIs(bytes: seq<Byte>, n: nat)
    requires n <= |bytes| && NEWLINE !in bytes[..n] && (n < |bytes| ==> bytes[n] == NEWLINE)
    ensures FirstNewline(bytes) == n
  {
    if n > 0 {
      assert bytes[0] == bytes[..n][0];
      assert bytes[1..][..n - 1] == bytes[..n][1..];
      FirstNewlineIs(bytes[1..], n - 1);
    }
  }

  class StreamReader {
    const limit: nat
    var buffer: seq<Byte>
    var incoming: seq<seq<Byte>>   // chunks that have yet to arrive; none left means EOF

    ghost function Rest(): seq<Byte> reads this { buffer + Joined(incoming) }

    constructor (limit: nat, chunks: seq<seq<Byte>>)
      ensures this.limit == limit && Rest() == Joined(chunks)
    {
      this.limit := limit;
      buffer, incoming := [], chunks;
    }

    // However the bytes are cut into chunks, the outcome is that of the whole stream.
    method ReadUntil() returns (r: Read)
      modifies this
      ensures (r, Rest()) == ReadLine(old(Rest()), limit)
    {
      var seen := 0;
      while true
        invariant seen <= |buffer| && NEWLINE !in buffer[..seen] && Rest() == old(Rest())
        decreases |incoming|, |buffer| - seen
      {
        while seen < |buffer| && buffer[seen] != NEWLINE
          invariant seen <= |buffer| && NEWLINE !in buffer[..seen]
        {
          assert buffer[..seen + 1] == buffer[..seen] + [buffer[seen]];
          seen := seen + 1;
        }
        if seen < |buffer| {
          NewlineInBuffer(buffer, Joined(incoming), seen);
          break;
        }
        if seen > limit {
          FoundLater(buffer, Joined(incoming));
          return Overrun;
        }
        if incoming == [] {
          assert Rest() == buffer && buffer[..seen] == buffer;
          FirstNewlineIs(buffer, |buffer|);
          r := Incomplete(buffer);
          buffer := [];
          assert Rest() == [];
          return;
        }
        assert (buffer + incoming[0])[..seen] == buffer[..seen];
        buffer, incoming := buffer + incoming[0], incoming[1..];
      }
      if seen > limit {
        return Overrun;
      }
      LineInBuffer(buffer, Joined(incoming), seen, limit);
      r := Line(buffer[..seen + 1]);
      buffer := buffer[seen + 1..];
    }
  }

  lemma LineInBuffer(buffer: seq<Byte>, later: seq<Byte>, n: nat, limit: nat)
    requires n < |buffer| && n <= limit && FirstNewline(buffer + later) == n
    ensures ReadLine(buffer + later, limit) == (Line(buffer[..n + 1]), buffer[n + 1..] + later)
  {
    assert (buffer + later)[..n + 1] == buffer[..n + 1];
    assert (buffer + later)[n + 1..] == buffer[n + 1..] + later;
  }

  lemma NewlineInBuffer(buffer: seq<Byte>, later: seq<Byte>, n: nat)
    requires n < |buffer| && NEWLINE !in buffer[..n] && buffer[n] == NEWLINE
    ensures FirstNewline(buffer + later) == n
  {
    assert (buffer + later)[..n] == buffer[..n];
    FirstNewlineIs(buffer + later, n);
  }

  lemma FoundLater(head: seq<Byte>, tail: seq<Byte>)
    requires NEWLINE !in head
    ensures FirstNewline(head + tail) == |head| + FirstNewline(tail)
  {
    var n := FirstNewline(tail);
    var all := head + tail;
    assert all[..|head| + n] == head + tail[..n];
    FirstNewlineIs(all, |head| + n);
  }

  // ---- Reading envelopes ----

  datatype Outcome<+E> = Got(envelope: E) | Closed | TooLarge | Malformed

  // What a codec makes of one line; the trailing newline is dropped before parsing.
  function Decode<E>(c: Codec<E>, line: seq<Byte>): Outcome<E> {
    var text := if line != [] && line[|line| - 1] == NEWLINE then line[..|line| - 1] else line;
    match c.parse(text) case Some(e) => Got(e) case None => Malformed
  }

  function Encode<E>(c: Codec<E>, e: E): (r: Outcome<seq<Byte>>)
    ensures r.Got? <==> |c.body(e)| < 0x10_0000
    ensures !r.Got? ==> r == TooLarge
  {
    if |c.body(e)| + 1 > MAX_MESSAGE_BYTES then TooLarge else Got(c.body(e) + [NEWLINE])
  }

  // One envelope, blank lines skipped, from everything the stream will hold; and what is left.
  function ReadOne<E>(c: Codec<E>, bytes: seq<Byte>, limit: nat, max: nat): (Outcome<E>, seq<Byte>)
    decreases |bytes|
  {
    match ReadLine(bytes, limit)
    case (Incomplete(partial), rest) =>
      (if partial == [] then Closed else if |partial| > max then TooLarge else Malformed, rest)
    case (Overrun, rest) => (TooLarge, rest)
    case (Line(line), rest) =>
      if |line| > max then (TooLarge, rest)
      else if line == [NEWLINE] then ReadOne(c, rest, limit, max)
      else (Decode(c, line), rest)
  }

  lemma {:induction false} ReadOneConsumes<E>(c: Codec<E>, bytes: seq<Byte>, limit: nat, max: nat)
    ensures ReadOne(c, bytes, limit, max).0.Got? ==> |ReadOne(c, bytes, limit, max).1| < |bytes|
    decreases |bytes|
  {
    match ReadLine(bytes, limit)
    case (Line(line), rest) => ReadOneConsumes(c, rest, limit, max);
    case _ =>
  }

  datatype End = CleanEnd | FailedTooLarge | FailedMalformed

  function Ending<E>(o: Outcome<E>): End
    requires !o.Got?
  {
    match o case Closed => CleanEnd case TooLarge => FailedTooLarge case Malformed => FailedMalformed
  }

  // All envelopes yielded, and how the iteration ends.
  function ReadAll<E>(c: Codec<E>, bytes: seq<Byte>, limit: nat, max: nat): (seq<E>, End)
    decreases |bytes|
  {
    var (outcome, rest) := ReadOne(c, bytes, limit, max);
    if !outcome.Got? then ([], Ending(outcome))
    else
      ReadOneConsumes(c, bytes, limit, max);
      var (more, end) := ReadAll(c, rest, limit, max);
      ([outcome.envelope] + more, end)
  }

  method ReadOneEnvelope<E>(c: Codec<E>, stream: StreamReader, max: nat) returns (r: Outcome<E>)
    modifies stream
    ensures (r, stream.Rest()) == ReadOne(c, old(stream.Rest()), stream.limit, max)
  {
    while true
      invariant ReadOne(c, stream.Rest(), stream.limit, max) == ReadOne(c, old(stream.Rest()), stream.limit, max)
      decreases |stream.Rest()|
    {
      var read := stream.ReadUntil();
      match read {
        case Incomplete(partial) =>
          if partial == [] {
            return Closed;
          }
          if |partial| > max {
            return TooLarge;
          }
          return Malformed;
        case Overrun => return TooLarge;
        case Line(line) =>
          if |line| > max {
            return TooLarge;
          }
          if line != [NEWLINE] {
            return Decode(c, line);
          }
      }
    }
  }

  // The generator run to its end: what it yields depends on the bytes alone, not on the chunks.
  method ReadMessages<E>(c: Codec<E>, stream: StreamReader, max: nat) returns (yielded: seq<E>, end: End)
    modifies stream
    ensures (yielded, end) == ReadAll(c, old(stream.Rest()), stream.limit, max)
  {
    yielded := [];
    ghost var total := ReadAll(c, stream.Rest(), stream.limit, max);
    ghost var left := total;
    while true
      invariant left == ReadAll(c, stream.Rest(), stream.limit, max)
      invariant total.0 == yielded + left.0 && total.1 == left.1
      decreases |stream.Rest()|
    {
      ReadOneConsumes(c, stream.Rest(), stream.limit, max);
      var r := ReadOneEnvelope(c, stream, max);
      if r.Got? {
        assert yielded + left.0 == yielded + [r.envelope] + left.0[1..];
        yielded := yielded + [r.envelope];
        left := (left.0[1..], left.1);
      } else {
        assert yielded + left.0 == yielded;
        end := Ending(r);
        return;
      }
    }
  }

  // ---- Round trip ----

  datatype Item<+E> = Blank | Frame(e: E)

  function ItemBytes<E>(c: Codec<E>, item: Item<E>): seq<Byte> {
    if item.Blank? then [NEWLINE] else c.body(item.e) + [NEWLINE]
  }

  function Render<E>(c: Codec<E>, items: seq<Item<E>>): seq<Byte> {
    if items == [] then [] else ItemBytes(c, items[0]) + Render(c, items[1..])
  }

  function Frames<E>(items: seq<Item<E>>): seq<E> {
    if items == [] then [] else (if items[0].Frame? then [items[0].e] else []) + Frames(items[1..])
  }

  // The body codec is inverse and newline-free on this envelope, and the frame is within both limits.
  ghost predicate Admitted<E>(c: Codec<E>, e: E, limit: nat, max: nat) {
    c.parse(c.body(e)) == Some(e) && NEWLINE !in c.body(e) && 0 < |c.body(e)| <= limit && |c.body(e)| + 1 <= max
  }

  ghost predicate AllAdmitted<E>(c: Codec<E>, items: seq<Item<E>>, limit: nat, max: nat) {
    forall i | 0 <= i < |items| && items[i].Frame? :: Admitted(c, items[i].e, limit, max)
  }

  lemma ReadLineOfFrame(body: seq<Byte>, rest: seq<Byte>, limit: nat)
    requires NEWLINE !in body && |body| <= limit
    ensures ReadLine(body + [NEWLINE] + rest, limit) == (Line(body + [NEWLINE]), rest)
  {
    var all := body + [NEWLINE] + rest;
    assert all[..|body|] == body;
    FirstNewlineIs(all, |body|);
    assert all[..|body| + 1] == body + [NEWLINE] && all[|body| + 1..] == rest;
  }

  lemma ReadAllOfItem<E>(c: Codec<E>, item: Item<E>, rest: seq<Byte>, limit: nat, max: nat)
    requires max >= 1 && (item.Frame? ==> Admitted(c, item.e, limit, max))
    ensures var (more, end) := ReadAll(c, rest, limit, max);
            ReadAll(c, ItemBytes(c, item) + rest, limit, max) == ((if item.Frame? then [item.e] else []) + more, end)
  {
    var body := if item.Frame? then c.body(item.e) else [];
    ReadLineOfFrame(body, rest, limit);
    assert ItemBytes(c, item) + rest == body + [NEWLINE] + rest;
    if item.Frame? {
      assert (body + [NEWLINE])[..|body|] == body;
    } else {
      assert [] + ReadAll(c, rest, limit, max).0 == ReadAll(c, rest, limit, max).0;
    }
  }

  // Whatever follows a rendered list is read as if it stood alone, after the list's envelopes.
  lemma {:induction false} ReadAllOfItems<E>(c: Codec<E>, items: seq<Item<E>>, rest: seq<Byte>, limit: nat, max: nat)
    requires max >= 1 && AllAdmitted(c, items, limit, max)
    ensures var (more, end) := ReadAll(c, rest, limit, max);
            ReadAll(c, Render(c, items) + rest, limit, max) == (Frames(items) + more, end)
    decreases |items|
  {
    if items == [] {
      assert Render(c, items) + rest == rest;
      assert Frames(items) + ReadAll(c, rest, limit, max).0 == ReadAll(c, rest, limit, max).0;
    } else {
      ReadAllOfItems(c, items[1..], rest, limit, max);
      ReadAllOfItem(c, items[0], Render(c, items[1..]) + rest, limit, max);
      ConcatOfItems(c, items, rest, ReadAll(c, rest, limit, max).0);
    }
  }

  lemma ConcatOfItems<E>(c: Codec<E>, items: seq<Item<E>>, rest: seq<Byte>, more: seq<E>)
    requires items != []
    ensures Render(c, items) + rest == ItemBytes(c, items[0]) + (Render(c, items[1..]) + rest)
    ensures Frames(items) + more == (if items[0].Frame? then [items[0].e] else []) + (Frames(items[1..]) + more)
  {
  }

  // Any list of envelopes with any blank lines between them is read back exactly, then ends cleanly.
  lemma RoundTrip<E>(c: Codec<E>, items: seq<Item<E>>, limit: nat, max: nat)
    requires max >= 1 && AllAdmitted(c, items, limit, max)
    ensures ReadAll(c, Render(c, items), limit, max) == (Frames(items), CleanEnd)
  {
    ReadAllOfItems(c, items, [], limit, max);
    assert Render(c, items) + [] == Render(c, items) && Frames(items) + [] == Frames(items);
  }

  // What is left without a newline at the end of the stream.
  function TailEnd(tail: seq<Byte>, limit: nat, max: nat): End {
    if tail == [] then CleanEnd else if |tail| > limit || |tail| > max then FailedTooLarge else FailedMalformed
  }

  lemma TailEnds<E>(c: Codec<E>, tail: seq<Byte>, limit: nat, max: nat)
    requires NEWLINE !in tail
    ensures ReadAll(c, tail, limit, max) == ([], TailEnd(tail, limit, max))
  {
    assert tail[..|tail|] == tail;
    FirstNewlineIs(tail, |tail|);
  }

  lemma PartialFrameFails<E>(c: Codec<E>, partial: seq<Byte>, limit: nat, max: nat)
    requires NEWLINE !in partial && 0 < |partial| <= limit && |partial| <= max
    ensures ReadAll(c, partial, limit, max) == ([], FailedMalformed)
  {
    TailEnds(c, partial, limit, max);
  }

  // The first k items lie wholly before the cut, the next one does not; the first k are read, and
  // the end is clean only if the cut falls between items.
  ghost predicate ReadUpTo<E>(c: Codec<E>, items: seq<Item<E>>, cut: nat, limit: nat, max: nat, k: nat) {
    && k <= |items| && |Render(c, items[..k])| <= cut <= |Render(c, items)|
    && (k < |items| ==> cut < |Render(c, items[..k + 1])|)
    && ReadAll(c, Render(c, items)[..cut], limit, max)
         == (Frames(items[..k]), if |Render(c, items[..k])| == cut then CleanEnd else FailedMalformed)
  }

  lemma CutInFirstItem<E>(c: Codec<E>, items: seq<Item<E>>, cut: nat, limit: nat, max: nat)
    requires items != [] && (items[0].Frame? ==> Admitted(c, items[0].e, limit, max))
    requires cut < |ItemBytes(c, items[0])|
    ensures ReadUpTo(c, items, cut, limit, max, 0)
  {
    PrefixOfItems(c, items, 0);
    assert Render(c, items[..0]) == [] && Render(c, items[1..][..0]) == [];
    if cut > 0 {
      var body := c.body(items[0].e);
      assert Render(c, items)[..cut] == body[..cut];
      PartialFrameFails(c, body[..cut], limit, max);
    }
  }

  lemma CutReadsFirst<E>(c: Codec<E>, items: seq<Item<E>>, cut: nat, limit: nat, max: nat)
    requires max >= 1 && AllAdmitted(c, items, limit, max) && items != []
    requires |ItemBytes(c, items[0])| <= cut <= |Render(c, items)|
    ensures var (more, end) := ReadAll(c, Render(c, items[1..])[..cut - |ItemBytes(c, items[0])|], limit, max);
      ReadAll(c, Render(c, items)[..cut], limit, max)
        == ((if items[0].Frame? then [items[0].e] else []) + more, end)
  {
    var first, later := ItemBytes(c, items[0]), Render(c, items[1..]);
    var n := cut - |first|;
    assert Render(c, items)[..cut] == first + later[..n];
    ReadAllOfItem(c, items[0], later[..n], limit, max);
  }

  lemma CutPastFirstItem<E>(c: Codec<E>, items: seq<Item<E>>, cut: nat, limit: nat, max: nat, j: nat)
    requires max >= 1 && AllAdmitted(c, items, limit, max)
    requires items != [] && cut >= |ItemBytes(c, items[0])|
    requires ReadUpTo(c, items[1..], cut - |ItemBytes(c, items[0])|, limit, max, j)
    ensures ReadUpTo(c, items, cut, limit, max, j + 1)
  {
    CutReadsFirst(c, items, cut, limit, max);
    PrefixOfItems(c, items, j);
    if j + 1 < |items| { PrefixOfItems(c, items, j + 1); }
  }

  // Wherever such a stream is cut, the envelopes wholly before the cut are yielded; a cut between
  // items ends cleanly and a cut inside one fails.
  lemma {:induction false} CutStream<E>(c: Codec<E>, items: seq<Item<E>>, cut: nat, limit: nat, max: nat)
    returns (k: nat)
    requires max >= 1 && AllAdmitted(c, items, limit, max) && cut <= |Render(c, items)|
    ensures ReadUpTo(c, items, cut, limit, max, k)
    decreases |items|
  {
    if items == [] {
      k := 0;
    } else if cut < |ItemBytes(c, items[0])| {
      k := 0;
      CutInFirstItem(c, items, cut, limit, max);
    } else {
      k := CutStream(c, items[1..], cut - |ItemBytes(c, items[0])|, limit, max);
      CutPastFirstItem(c, items, cut, limit, max, k);
      k := k + 1;
    }
  }

  lemma PrefixOfItems<E>(c: Codec<E>, items: seq<Item<E>>, j: nat)
    requires j < |items|
    ensures Render(c, items[..j + 1]) == ItemBytes(c, items[0]) + Render(c, items[1..][..j])
    ensures Frames(items[..j + 1]) == (if items[0].Frame? then [items[0].e] else []) + Frames(items[1..][..j])
  {
    assert items[..j + 1][0] == items[0] && items[..j + 1][1..] == items[1..][..j];
  }

  // A frame the writer accepts is read back if and only if the stream's own limit admits its body.
  lemma WrittenFrameIsReadable<E>(c: Codec<E>, e: E, limit: nat)
    requires c.parse(c.body(e)) == Some(e) && NEWLINE !in c.body(e) && c.body(e) != []
    requires Encode(c, e).Got?
    ensures ReadAll(c, Encode(c, e).envelope, limit, MAX_MESSAGE_BYTES) == ([e], CleanEnd) <==> |c.body(e)| <= limit
    ensures |c.body(e)| > limit ==> ReadAll(c, Encode(c, e).envelope, limit, MAX_MESSAGE_BYTES) == ([], FailedTooLarge)
  {
    var body := c.body(e);
    assert (body + [NEWLINE])[..|body|] == body;
    FirstNewlineIs(body + [NEWLINE], |body|);
    if |body| <= limit {
      RoundTrip(c, [Frame(e)], limit, MAX_MESSAGE_BYTES);
      assert Render(c, [Frame(e)]) == body + [NEWLINE] by { assert Render(c, [Frame(e)][1..]) == []; }
      assert Frames([Frame(e)]) == [e] by { assert Frames([Frame(e)][1..]) == []; }
    }
  }

  // ---- Any stream at all ----

  // The line is within both limits, and is blank or an envelope.
  predicate GoodLine<E>(c: Codec<E>, text: seq<Byte>, limit: nat, max: nat) {
    |text| <= limit && |text| + 1 <= max && (text == [] || c.parse(text).Some?)
  }

  // How the iteration ends at a line that is not.
  function BadLineEnd(text: seq<Byte>, limit: nat, max: nat): End {
    if |text| > limit || |text| + 1 > max then FailedTooLarge else FailedMalformed
  }

  function Lines(texts: seq<seq<Byte>>): seq<Byte> {
    if texts == [] then [] else texts[0] + [NEWLINE] + Lines(texts[1..])
  }

  ghost predicate NewlineFree(texts: seq<seq<Byte>>) {
    forall i | 0 <= i < |texts| :: NEWLINE !in texts[i]
  }

  ghost predicate AllGood<E>(c: Codec<E>, texts: seq<seq<Byte>>, limit: nat, max: nat) {
    forall i | 0 <= i < |texts| :: GoodLine(c, texts[i], limit, max)
  }

  function Yield<E>(c: Codec<E>, text: seq<Byte>): seq<E> {
    match c.parse(text)
    case Some(e) => if text == [] then [] else [e]
    case None => []
  }

  function Yields<E>(c: Codec<E>, texts: seq<seq<Byte>>): seq<E> {
    if texts == [] then [] else Yield(c, texts[0]) + Yields(c, texts[1..])
  }

  lemma LineThen(text: seq<Byte>, rest: seq<Byte>, limit: nat)
    requires NEWLINE !in text
    ensures var bytes := text + [NEWLINE] + rest;
      ReadLine(bytes, limit) == if |text| > limit then (Overrun, bytes) else (Line(text + [NEWLINE]), rest)
  {
    var bytes := text + [NEWLINE] + rest;
    assert bytes[..|text|] == text;
    FirstNewlineIs(bytes, |text|);
    assert bytes[..|text| + 1] == text + [NEWLINE] && bytes[|text| + 1..] == rest;
  }

  lemma GoodLineThen<E>(c: Codec<E>, text: seq<Byte>, rest: seq<Byte>, limit: nat, max: nat)
    requires NEWLINE !in text && GoodLine(c, text, limit, max)
    ensures var (more, end) := ReadAll(c, rest, limit, max);
      ReadAll(c, text + [NEWLINE] + rest, limit, max) == (Yield(c, text) + more, end)
  {
    LineThen(text, rest, limit);
    assert (text + [NEWLINE])[..|text|] == text;
    if text == [] {
      assert text + [NEWLINE] == [NEWLINE];
      assert Yield(c, text) + ReadAll(c, rest, limit, max).0 == ReadAll(c, rest, limit, max).0;
    }
  }

  // A line that is too long, or is no envelope, ends the iteration there with its error.
  lemma BadLineEnds<E>(c: Codec<E>, text: seq<Byte>, rest: seq<Byte>, limit: nat, max: nat)
    requires NEWLINE !in text && !GoodLine(c, text, limit, max)
    ensures ReadAll(c, text + [NEWLINE] + rest, limit, max) == ([], BadLineEnd(text, limit, max))
  {
    LineThen(text, rest, limit);
    assert (text + [NEWLINE])[..|text|] == text;
  }

  lemma {:induction false} GoodLinesThen<E>(c: Codec<E>, texts: seq<seq<Byte>>, rest: seq<Byte>, limit: nat, max: nat)
    requires NewlineFree(texts) && AllGood(c, texts, limit, max)
    ensures var (more, end) := ReadAll(c, rest, limit, max);
      ReadAll(c, Lines(texts) + rest, limit, max) == (Yields(c, texts) + more, end)
    decreases |texts|
  {
    var (more, end) := ReadAll(c, rest, limit, max);
    if texts == [] {
      assert Lines(texts) + rest == rest && Yields(c, texts) + more == more;
    } else {
      GoodLinesThen(c, texts[1..], rest, limit, max);
      GoodLineThen(c, texts[0], Lines(texts[1..]) + rest, limit, max);
      LinesConcat(c, texts, rest, more);
    }
  }

  lemma LinesConcat<E>(c: Codec<E>, texts: seq<seq<Byte>>, rest: seq<Byte>, more: seq<E>)
    requires texts != []
    ensures Lines(texts) + rest == texts[0] + [NEWLINE] + (Lines(texts[1..]) + rest)
    ensures Yields(c, texts) + more == Yield(c, texts[0]) + (Yields(c, texts[1..]) + more)
  {
  }

  // What reading one envelope makes of the line at the front, and what it leaves.
  lemma ReadOneAtLine<E>(c: Codec<E>, text: seq<Byte>, rest: seq<Byte>, limit: nat, max: nat)
    requires NEWLINE !in text && |text| <= limit
    ensures var r := ReadOne(c, text + [NEWLINE] + rest, limit, max);
      if |text| + 1 > max then r == (TooLarge, rest)
      else if text == [] then r == ReadOne(c, rest, limit, max)
      else r == (match c.parse(text) case Some(e) => Got(e) case None => Malformed, rest)
    ensures ReadOne(c, [], limit, max) == (Closed, [])
    ensures text != [] ==> ReadOne(c, text, limit, max) == (if |text| > max then TooLarge else Malformed, [])
  {
    LineThen(text, rest, limit);
    assert (text + [NEWLINE])[..|text|] == text && text[..|text|] == text;
    FirstNewlineIs(text, |text|);
    if text == [] {
      assert text + [NEWLINE] == [NEWLINE];
    }
  }

  // After any good lines, the first bad one decides, whatever follows it.
  lemma FirstBadLineDecides<E>(c: Codec<E>, texts: seq<seq<Byte>>, bad: seq<Byte>, rest: seq<Byte>, limit: nat,
                               max: nat)
    requires NewlineFree(texts) && AllGood(c, texts, limit, max)
    requires NEWLINE !in bad && !GoodLine(c, bad, limit, max)
    ensures ReadAll(c, Lines(texts) + (bad + [NEWLINE] + rest), limit, max)
         == (Yields(c, texts), BadLineEnd(bad, limit, max))
  {
    GoodLinesThen(c, texts, bad + [NEWLINE] + rest, limit, max);
    BadLineEnds(c, bad, rest, limit, max);
    assert Yields(c, texts) + [] == Yields(c, texts);
  }

  // Every stream is lines and a tail, and reading it comes to what the lines say: the envelopes up to the
  // first bad line, then its error, or else the end the tail calls for.
  lemma {:induction false} EveryStreamReadsByLines<E>(c: Codec<E>, bytes: seq<Byte>, limit: nat, max: nat)
    returns (texts: seq<seq<Byte>>, end: End, rest: seq<Byte>)
    ensures NewlineFree(texts) && AllGood(c, texts, limit, max) && bytes == Lines(texts) + rest
    ensures ReadAll(c, bytes, limit, max) == (Yields(c, texts), end)
    ensures var n := FirstNewline(rest);
      if n < |rest| then !GoodLine(c, rest[..n], limit, max) && end == BadLineEnd(rest[..n], limit, max)
      else end == TailEnd(rest, limit, max)
    decreases |bytes|
  {
    var n := FirstNewline(bytes);
    if n == |bytes| {
      TailEnds(c, bytes, limit, max);
      assert bytes[..n] == bytes;
      return [], TailEnd(bytes, limit, max), bytes;
    }
    var text, later := bytes[..n], bytes[n + 1..];
    assert bytes == text + [NEWLINE] + later;
    if !GoodLine(c, text, limit, max) {
      BadLineEnds(c, text, later, limit, max);
      return [], BadLineEnd(text, limit, max), bytes;
    }
    var more;
    more, end, rest := EveryStreamReadsByLines(c, later, limit, max);
    GoodLineThen(c, text, later, limit, max);
    texts := [text] + more;
    OneMoreLine(c, text, more, rest, limit, max);
  }

  lemma OneMoreLine<E>(c: Codec<E>, text: seq<Byte>, more: seq<seq<Byte>>, rest: seq<Byte>, limit: nat, max: nat)
    requires NEWLINE !in text && GoodLine(c, text, limit, max) && NewlineFree(more) && AllGood(c, more, limit, max)
    ensures NewlineFree([text] + more) && AllGood(c, [text] + more, limit, max)
    ensures Lines([text] + more) + rest == text + [NEWLINE] + (Lines(more) + rest)
    ensures Yields(c, [text] + more) == Yield(c, text) + Yields(c, more)
  {
    assert ([text] + more)[1..] == more;
  }

  // The iteration ends cleanly if and only if the stream is nothing but blank lines and envelopes within
  // the limits.
  lemma CleanEndIffAllLinesGood<E>(c: Codec<E>, bytes: seq<Byte>, limit: nat, max: nat)
    ensures ReadAll(c, bytes, limit, max).1 == CleanEnd
      <==> exists texts :: NewlineFree(texts) && AllGood(c, texts, limit, max) && bytes == Lines(texts)
  {
    var texts, end, rest := EveryStreamReadsByLines(c, bytes, limit, max);
    if end == CleanEnd {
      assert rest == [] && Lines(texts) + [] == Lines(texts);
    }
    if good :| NewlineFree(good) && AllGood(c, good, limit, max) && bytes == Lines(good) {
      GoodLinesThen(c, good, [], limit, max);
      TailEnds<E>(c, [], limit, max);
      assert Lines(good) + [] == bytes;
    }
  }
}
