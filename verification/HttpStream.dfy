/** Reading a response body in beeper_task.c: all at once, or byte by byte with one byte of lookahead and a capture
    of the bytes just read; the body is sent in chunks (section 7.1 of RFC 9112) or with its length told before. */
module HttpStream {
  import opened Basics

  // ---------- the chunked form ----------

  /** A chunk with the hexadecimal digits of its size. */
  datatype Chunk = Chunk(size: string, data: string)

  const CRLF := "\r\n"

  predicate HexDigits(s: string)
  {
    forall i :: 0 <= i < |s| ==> HexDigit(s[i])
  }

  /** sscanf(s, "%x") */
  function HexValue(s: string): nat
    requires HexDigits(s)
  {
    if s == [] then 0 else 16 * HexValue(s[..|s| - 1]) + DigitValue(s[|s| - 1])
  }

  /** A size line that the reader takes: up to eight digits, of a number that an int holds. */
  predicate SizeLine(s: string, n: nat)
  {
    1 <= |s| <= 8 && HexDigits(s) && HexValue(s) == n < 0x8000_0000
  }

  predicate Proper(c: Chunk)
  {
    c.data != [] && SizeLine(c.size, |c.data|)
  }

  const LOWER := "0123456789abcdef"
  const UPPER := "0123456789ABCDEF"

  /** printf("%x") or printf("%X"): the digits of a number, the highest first. */
  function Printed(n: nat, digits: string): (s: string)
    requires |digits| == 16
    ensures s != []
  {
    if n < 16 then [digits[n]] else Printed(n / 16, digits) + [digits[n % 16]]
  }

  /** Each of the sixteen digits, small or capital, is worth its place among them. */
  lemma DigitsWorth(v: nat)
    requires v < 16
    ensures HexDigit(LOWER[v]) && DigitValue(LOWER[v]) == v
    ensures HexDigit(UPPER[v]) && DigitValue(UPPER[v]) == v
  {
  }

  /** A number that is printed is read back as the same number. */
  lemma {:induction false} PrintedValue(n: nat, digits: string)
    requires digits == LOWER || digits == UPPER
    ensures HexDigits(Printed(n, digits)) && HexValue(Printed(n, digits)) == n
  {
    if n < 16 {
      DigitsWorth(n);
      assert [digits[n]][..0] == [];
    } else {
      PrintedValue(n / 16, digits);
      DigitsWorth(n % 16);
      var s := Printed(n / 16, digits);
      assert (s + [digits[n % 16]])[..|s|] == s;
    }
  }

  function Power(k: nat): nat
  {
    if k == 0 then 1 else 16 * Power(k - 1)
  }

  lemma {:induction false} PrintedShort(n: nat, digits: string, k: nat)
    requires |digits| == 16 && n < Power(k) && k > 0
    ensures |Printed(n, digits)| <= k
  {
    if n >= 16 {
      assert k > 1;
      PrintedShort(n / 16, digits, k - 1);
    }
  }

  /** A chunk whose size line is its size, printed either way, is one that the reader takes. */
  lemma PrintedProper(data: string, digits: string)
    requires (digits == LOWER || digits == UPPER) && 0 < |data| < 0x8000_0000
    ensures Proper(Chunk(Printed(|data|, digits), data))
  {
    PrintedValue(|data|, digits);
    assert Power(8) == 16 * 16 * 16 * 16 * 16 * 16 * 16 * 16 by {
      assert Power(4) == 16 * 16 * 16 * 16;
    }
    PrintedShort(|data|, digits, 8);
  }

  /** A body in pieces, as section 7.1 of RFC 9112 has it sent: each piece after the line of its size, and a line of
      zero and an empty one after the last. */
  function Sent(pieces: seq<string>, digits: string): string
    requires |digits| == 16
  {
    if pieces == [] then "0\r\n\r\n"
    else Printed(|pieces[0]|, digits) + "\r\n" + pieces[0] + "\r\n" + Sent(pieces[1..], digits)
  }

  function Chunks(pieces: seq<string>, digits: string): (cs: seq<Chunk>)
    requires |digits| == 16
    ensures |cs| == |pieces|
    ensures forall i {:trigger cs[i]} :: 0 <= i < |cs| ==> cs[i] == Chunk(Printed(|pieces[i]|, digits), pieces[i])
  {
    seq(|pieces|, i requires 0 <= i < |pieces| => Chunk(Printed(|pieces[i]|, digits), pieces[i]))
  }

  function Joined(pieces: seq<string>): string
  {
    if pieces == [] then "" else pieces[0] + Joined(pieces[1..])
  }

  /** What is sent so is what the readers take, and the body is the pieces one after the other. */
  lemma {:induction false} SentProper(pieces: seq<string>, digits: string, rest: string)
    requires (digits == LOWER || digits == UPPER) && forall i :: 0 <= i < |pieces| ==> 0 < |pieces[i]| < 0x8000_0000
    ensures ProperAll(Chunks(pieces, digits), "0") && Body(Chunks(pieces, digits)) == Joined(pieces)
    ensures Wire(Chunks(pieces, digits), "0", rest) == Sent(pieces, digits) + rest
  {
    var cs := Chunks(pieces, digits);
    ZeroLine();
    forall i | 0 <= i < |cs| ensures Proper(cs[i]) {
      PrintedProper(pieces[i], digits);
    }
    if pieces == [] {
      assert "0" + ("\r\n" + ("\r\n" + rest)) == "0\r\n\r\n" + rest;
    } else {
      SentProper(pieces[1..], digits, rest);
      assert Chunks(pieces[1..], digits) == cs[1..];
      SentOne(cs[0].size, pieces[0], Sent(pieces[1..], digits), rest);
    }
  }

  lemma ZeroLine()
    ensures SizeLine("0", 0)
  {
    assert "0"[..0] == [];
  }

  lemma SentOne(size: string, data: string, more: string, rest: string)
    ensures size + ("\r\n" + (data + ("\r\n" + (more + rest)))) == size + "\r\n" + data + "\r\n" + more + rest
  {
  }

  function Body(cs: seq<Chunk>): string
  {
    if cs == [] then [] else cs[0].data + Body(cs[1..])
  }

  /** The bytes on the wire, and what comes after them; `last` is the size line of the chunk that ends the body. */
  function Wire(cs: seq<Chunk>, last: string, rest: string): string
  {
    if cs == [] then last + (CRLF + (CRLF + rest))
    else cs[0].size + (CRLF + (cs[0].data + (CRLF + Wire(cs[1..], last, rest))))
  }

  /** How many bytes a chunked body takes on the wire. */
  function Length(cs: seq<Chunk>, last: string): nat
  {
    if cs == [] then |last| + 4 else |cs[0].size| + 2 + |cs[0].data| + 2 + Length(cs[1..], last)
  }

  ghost predicate ProperAll(cs: seq<Chunk>, last: string)
  {
    SizeLine(last, 0) && forall i {:trigger cs[i]} :: 0 <= i < |cs| ==> Proper(cs[i])
  }

  /** A connection: what is on the wire, and how far it has been read. */
  class Connection {
    const wire: string
    var pos: nat

    constructor (wire: string)
      ensures this.wire == wire && pos == 0
    {
      this.wire, pos := wire, 0;
    }

    ghost predicate Next(s: string)
      reads this`pos
    {
      pos <= |wire| && s <= wire[pos..]
    }

    method Read(n: nat) returns (s: string)
      requires pos + n <= |wire|
      modifies this`pos
      ensures pos == old(pos) + n && s == wire[old(pos)..pos]
    {
      s := wire[pos..pos + n];
      pos := pos + n;
    }

    /** What follows once the first part has been read. */
    lemma After(a: string, b: string)
      requires Next(a + b)
      ensures pos + |a| + |b| <= |wire| && wire[pos..pos + |a|] == a && b <= wire[pos + |a|..]
    {
      var rest := wire[pos..];
      assert rest[..|a| + |b|] == a + b;
      assert wire[pos..pos + |a|] == rest[..|a|] == (a + b)[..|a|] == a;
      assert wire[pos + |a|..] == rest[|a|..];
      assert b == (a + b)[|a|..] == rest[|a|..][..|b|];
    }

    /** request_read_chunk_size: three bytes, then one at a time up to the end of the line. */
    method ReadChunkSize(ghost size: string, ghost rest: string) returns (n: nat)
      requires 1 <= |size| <= 8 && HexDigits(size) && Next(size + (CRLF + rest))
      modifies this`pos
      ensures n == HexValue(size) && Next(rest) && pos == old(pos) + |size| + 2
    {
      ghost var line := size + CRLF;
      assert line + rest == size + (CRLF + rest);
      After(line, rest);
      assert forall i :: 0 <= i < |line| ==> wire[pos + i] == line[i];
      var head := Read(3);
      assert head == line[..3];
      while head[|head| - 2..] != CRLF
        invariant 3 <= |head| <= |line| && head == line[..|head|] && pos == old(pos) + |head|
        decreases |line| - |head|
      {
        assert |head| < |line|;
        var more := Read(1);
        head := head + more;
      }
      assert head[|head| - 2] == '\r';
      assert |head| == |line|;
      n := HexValue(head[..|head| - 2]);
      assert head[..|head| - 2] == size;
    }

    method SkipTrailer(ghost rest: string)
      requires Next(CRLF + rest)
      modifies this`pos
      ensures Next(rest) && pos == old(pos) + 2
    {
      After(CRLF, rest);
      var _ := Read(2);
    }

    /** request_recv with the chunks read at once. */
    method ReceiveChunked(ghost cs: seq<Chunk>, ghost last: string, ghost rest: string) returns (resp: string)
      requires ProperAll(cs, last) && Next(Wire(cs, last, rest))
      modifies this`pos
      ensures resp == Body(cs) && pos == old(pos) + Length(cs, last) && Next(rest)
    {
      resp := [];
      ghost var todo := cs;
      var more := true;
      while more
        invariant more ==> ProperAll(todo, last) && Next(Wire(todo, last, rest)) && resp + Body(todo) == Body(cs)
        invariant more ==> pos + Length(todo, last) == old(pos) + Length(cs, last)
        invariant !more ==> resp == Body(cs) && Next(rest) && pos == old(pos) + Length(cs, last)
        decreases more, |todo|
      {
        var data;
        more, data := ReceiveChunk(todo, last, rest);
        BodyStep(todo, resp, data);
        resp := resp + data;
        todo := if more then todo[1..] else [];
      }
    }

    /** One chunk, with its size line and what follows it; there is no more after the empty one. */
    method ReceiveChunk(ghost cs: seq<Chunk>, ghost last: string, ghost rest: string) returns (more: bool, data: string)
      requires ProperAll(cs, last) && Next(Wire(cs, last, rest))
      modifies this`pos
      ensures more <==> cs != []
      ensures more ==> data == cs[0].data && ProperAll(cs[1..], last) && Next(Wire(cs[1..], last, rest))
                       && pos + Length(cs[1..], last) == old(pos) + Length(cs, last)
      ensures !more ==> data == [] && Next(rest) && pos == old(pos) + Length(cs, last)
    {
      WireHead(cs, last, rest);
      data := [];
      var size := ReadChunkSize(Head(cs, last).size, Following(cs, last, rest));
      more := size > 0;
      if more {
        After(cs[0].data, CRLF + Wire(cs[1..], last, rest));
        data := Read(size);
        SkipTrailer(Wire(cs[1..], last, rest));
      } else {
        SkipTrailer(rest);
      }
    }

    /** request_recv with the length told before. */
    method ReceiveSized(length: nat, ghost body: string, ghost rest: string) returns (resp: string)
      requires |body| == length && Next(body + rest)
      modifies this`pos
      ensures resp == body && pos == old(pos) + |body| && Next(rest)
    {
      After(body, rest);
      resp := Read(length);
    }
  }

  /** The next chunk on the wire, the empty one at the end. */
  ghost function Head(cs: seq<Chunk>, last: string): Chunk
  {
    if cs == [] then Chunk(last, []) else cs[0]
  }

  /** What follows the next size line. */
  ghost function Following(cs: seq<Chunk>, last: string, rest: string): string
  {
    if cs == [] then CRLF + rest else cs[0].data + (CRLF + Wire(cs[1..], last, rest))
  }

  lemma WireHead(cs: seq<Chunk>, last: string, rest: string)
    requires ProperAll(cs, last)
    ensures SizeLine(Head(cs, last).size, |Head(cs, last).data|)
    ensures Wire(cs, last, rest) == Head(cs, last).size + (CRLF + Following(cs, last, rest))
    ensures cs != [] ==> Proper(cs[0]) && ProperAll(cs[1..], last)
  {
  }

  lemma BodyStep(cs: seq<Chunk>, resp: string, data: string)
    requires data == Head(cs, "").data
    ensures resp + Body(cs) == if cs == [] then resp + data else resp + data + Body(cs[1..])
  {
  }

  // ---------- the lazy reader ----------

  const CHUNKED := -1

  /** stream_data_t */
  class Stream {
    const conn: Connection
    const fullLen: int
    var chunkRemaining: int  // -1 after the last chunk
    var hasRead: bool        // has_read_a_chunk_already
    var peekReady: bool
    var recent: Option<char>
    var position: nat
    var capturing: bool
    var captureStart: nat
    var capture: array<char>
    var captureLen: nat
    ghost const body: string
    ghost const last: string
    ghost const rest: string       // what is on the wire after the body
    ghost const end: nat           // where the body ends on the wire
    ghost var todo: seq<Chunk>     // the chunks that have not been begun
    ghost var left: string         // what is left of the chunk that has

    /** Where the wire stands in the chunked form. */
    ghost predicate ChunkFeed()
      reads this`chunkRemaining, this`hasRead, this`position, this`todo, this`left, conn`pos
    {
      && ProperAll(todo, last) && position <= |body|
      && if chunkRemaining == -1 then position == |body| && conn.Next(rest) && conn.pos == end
         else
           && |left| == chunkRemaining && body[position..] == left + Body(todo)
           && if hasRead then conn.Next(left + (CRLF + Wire(todo, last, rest)))
              && conn.pos + |left| + 2 + Length(todo, last) == end
              else left == [] && conn.Next(Wire(todo, last, rest)) && conn.pos + Length(todo, last) == end
    }

    ghost predicate Feed()
      reads this`chunkRemaining, this`hasRead, this`position, this`todo, this`left, conn`pos
    {
      if fullLen != CHUNKED then
        position <= |body| == fullLen && conn.Next(body[position..] + rest) && conn.pos + |body| - position == end
      else ChunkFeed()
    }

    /** The buffer holds what was read since the capture began, and the byte before. */
    ghost predicate Captured()
      reads this`position, this`capturing, this`captureStart, this`capture, this`captureLen, capture
    {
      && captureLen <= capture.Length
      && (capturing ==>
            captureStart <= position <= |body| && captureLen == position - captureStart
            && capture[..captureLen] == body[captureStart..position])
    }

    ghost predicate Lookahead()
      reads this`peekReady, this`recent, this`position
    {
      && position <= |body|
      && (if recent.Some? then position > 0 ==> recent.value == body[position - 1] else position == |body|)
      && (peekReady && recent.Some? ==> position > 0)
    }

    ghost predicate Valid()
      reads this, conn`pos, capture
    {
      Feed() && Captured() && Lookahead() && (recent.None? && fullLen == CHUNKED ==> chunkRemaining == -1)
    }

    /** How many bytes the user of the stream has got. */
    ghost function Cursor(): nat
      requires Lookahead()
      reads this`peekReady, this`recent, this`position
    {
      if peekReady && recent.Some? then position - 1 else position
    }

    /** The byte at a place; nothing at the end. */
    ghost function At(i: nat): Option<char>
    {
      if i < |body| then Some(body[i]) else None
    }

    constructor Chunked(conn: Connection, ghost cs: seq<Chunk>, ghost last: string, ghost rest: string)
      requires ProperAll(cs, last) && conn.Next(Wire(cs, last, rest))
      ensures Valid() && this.conn == conn && body == Body(cs) && this.rest == rest
      ensures end == conn.pos + Length(cs, last)
      ensures Cursor() == 0 && !capturing && fresh(capture)
    {
      this.conn, fullLen := conn, CHUNKED;
      chunkRemaining, hasRead, peekReady, recent, position := 0, false, false, Some('\0'), 0;
      capturing, captureStart, capture, captureLen := false, 0, new char[0], 0;
      body, this.last, this.rest, end := Body(cs), last, rest, conn.pos + Length(cs, last);
      todo, left := cs, [];
    }

    constructor Sized(conn: Connection, length: nat, ghost body: string, ghost rest: string)
      requires |body| == length && conn.Next(body + rest)
      ensures Valid() && this.conn == conn && this.body == body && this.rest == rest && end == conn.pos + length
      ensures Cursor() == 0 && !capturing && fresh(capture)
    {
      this.conn, fullLen := conn, length;
      chunkRemaining, hasRead, peekReady, recent, position := 0, false, false, Some('\0'), 0;
      capturing, captureStart, capture, captureLen := false, 0, new char[0], 0;
      this.body, last, this.rest, end := body, [], rest, conn.pos + length;
      todo, left := [], [];
      new;
      assert body[0..] == body;
    }

    /** Between two chunks: skips what ends the one before, and reads the size of the next. */
    method NextChunk()
      requires fullLen == CHUNKED && ChunkFeed() && chunkRemaining == 0
      modifies this`chunkRemaining, this`hasRead, this`todo, this`left, conn`pos
      ensures ChunkFeed() && (chunkRemaining == -1 || chunkRemaining > 0)
    {
      assert [] + (CRLF + Wire(todo, last, rest)) == CRLF + Wire(todo, last, rest);
      if hasRead {
        conn.SkipTrailer(Wire(todo, last, rest));
      }
      WireHead(todo, last, rest);
      var size := conn.ReadChunkSize(Head(todo, last).size, Following(todo, last, rest));
      if size > 0 {
        chunkRemaining := size;
        left, todo := todo[0].data, todo[1..];
      } else {
        chunkRemaining := -1;
        conn.SkipTrailer(rest);
      }
      hasRead := true;
    }

    /** _stream_data_capture_push_val: the buffer grows by a thousand bytes when it is full. */
    method Push(val: char)
      requires capturing && captureLen <= capture.Length
      modifies this`capture, this`captureLen, capture
      ensures captureLen == old(captureLen) + 1 <= capture.Length
      ensures capture[..captureLen] == old(capture[..captureLen]) + [val]
      ensures capture == old(capture) || fresh(capture)
    {
      if captureLen == capture.Length {
        var more := new char[capture.Length + 1000];
        forall i | 0 <= i < captureLen {
          more[i] := capture[i];
        }
        assert more[..captureLen] == capture[..captureLen];
        capture := more;
      }
      capture[captureLen] := val;
      captureLen := captureLen + 1;
    }

    /** _stream_data_return, for a byte. */
    method Advance(val: char)
      requires position < |body| && val == body[position] && Captured()
      modifies this`recent, this`position, this`capture, this`captureLen, capture
      ensures recent == Some(val) && position == old(position) + 1 && Captured()
      ensures capture == old(capture) || fresh(capture)
    {
      recent := Some(val);
      position := position + 1;
      if capturing {
        Push(val);
        assert body[captureStart..position] == body[captureStart..position - 1] + [val];
      }
    }

    /** Reads the next byte of the body from the wire. */
    method Fetch() returns (val: char)
      requires Feed() && position < |body| && (fullLen == CHUNKED ==> chunkRemaining > 0)
      modifies this`chunkRemaining, this`left, conn`pos
      ensures val == body[position] && FedTo(position + 1)
    {
      if fullLen == CHUNKED {
        chunkRemaining := chunkRemaining - 1;
        assert left + (CRLF + Wire(todo, last, rest)) == left[..1] + (left[1..] + (CRLF + Wire(todo, last, rest)));
        conn.After(left[..1], left[1..] + (CRLF + Wire(todo, last, rest)));
        assert body[position..][0] == (left + Body(todo))[0];
        assert body[position + 1..] == body[position..][1..] == (left + Body(todo))[1..] == left[1..] + Body(todo);
        left := left[1..];
      } else {
        assert body[position..] + rest == [body[position]] + (body[position + 1..] + rest);
        conn.After([body[position]], body[position + 1..] + rest);
      }
      var b := conn.Read(1);
      val := b[0];
    }

    /** The wire stands where it does when so many bytes have been taken. */
    ghost predicate FedTo(p: nat)
      reads this`chunkRemaining, this`hasRead, this`todo, this`left, conn`pos
    {
      && p <= |body|
      && if fullLen != CHUNKED then |body| == fullLen && conn.Next(body[p..] + rest) && conn.pos + |body| - p == end
         else
           && ProperAll(todo, last) && hasRead && |left| == chunkRemaining && body[p..] == left + Body(todo)
           && conn.Next(left + (CRLF + Wire(todo, last, rest))) && conn.pos + |left| + 2 + Length(todo, last) == end
    }

    lemma FedFeeds()
      requires FedTo(position)
      ensures Feed()
    {
    }

    lemma ValidParts()
      requires Valid()
      ensures Feed() && Captured() && Lookahead() && position <= |body|
      ensures fullLen == CHUNKED ==> ChunkFeed() && (chunkRemaining == -1 || chunkRemaining >= 0)
      ensures fullLen == CHUNKED && chunkRemaining == -1 ==> position == |body|
      ensures fullLen != CHUNKED ==> |body| == fullLen
      ensures peekReady ==> recent == At(Cursor())
      ensures !peekReady ==> Cursor() == position
    {
    }

    /** One byte more, for whoever looks at it first. */
    method ReadNext()
      requires Feed() && Captured() && position < |body| && (fullLen == CHUNKED ==> chunkRemaining > 0)
      modifies this`chunkRemaining, this`left, this`recent, this`position, this`capture, this`captureLen, conn`pos
      modifies capture
      ensures Feed() && Captured() && position == old(position) + 1 && recent == Some(body[old(position)])
      ensures capture == old(capture) || fresh(capture)
    {
      hide *;
      var val := Fetch();
      Advance(val);
      FedFeeds();
    }

    /** stream_data_peek: shows the next byte, reading it if it has not been read. */
    method Peek() returns (r: Option<char>)
      requires Valid()
      modifies this, conn`pos, capture
      ensures Valid() && peekReady && Cursor() == old(Cursor()) && r == At(Cursor()) && r == recent
      ensures capturing == old(capturing) && captureStart == old(captureStart)
      ensures capture == old(capture) || fresh(capture)
    {
      hide *;
      ValidParts();
      if peekReady {
        return recent;
      }
      peekReady := true;
      if fullLen == CHUNKED && chunkRemaining == 0 {
        NextChunk();
        ChunkFeeds();
      }
      if if fullLen == CHUNKED then chunkRemaining == -1 else position >= fullLen {
        recent := None;
      } else {
        MoreToCome();
        ReadNext();
      }
      r := recent;
      Peeked(old(position));
    }

    lemma ChunkFeeds()
      requires ChunkFeed() && fullLen == CHUNKED
      ensures Feed() && position <= |body| && (chunkRemaining == -1 ==> position == |body|)
    {
    }

    lemma Peeked(p: nat)
      requires Feed() && Captured() && peekReady && p <= |body|
      requires if p < |body| then position == p + 1 && recent == Some(body[p]) else position == p && recent == None
      requires recent.None? && fullLen == CHUNKED ==> chunkRemaining == -1
      ensures Valid() && Cursor() == p && recent == At(p)
    {
    }

    lemma MoreToCome()
      requires Feed() && (if fullLen == CHUNKED then chunkRemaining > 0 else position < fullLen)
      ensures position < |body|
    {
      if fullLen == CHUNKED {
        assert |body[position..]| >= |left|;
      }
    }

    /** stream_data_get: takes the next byte. */
    method Get() returns (r: Option<char>)
      requires Valid()
      modifies this, conn`pos, capture
      ensures Valid() && r == recent == At(old(Cursor())) && Cursor() == old(Cursor()) + if r.Some? then 1 else 0
      ensures capturing == old(capturing) && captureStart == old(captureStart)
      ensures capture == old(capture) || fresh(capture)
    {
      if peekReady {
        peekReady := false;
        return recent;
      }
      r := Peek();
      peekReady := false;
    }

    /** stream_data_start_capture: from the byte that was read last on. */
    method StartCapture()
      requires Valid() && !capturing && (position > 0 ==> recent.Some?)
      modifies this`capturing, this`captureStart, this`capture, this`captureLen, capture
      ensures Valid() && capturing && Cursor() == old(Cursor())
      ensures captureStart == if position > 0 then position - 1 else 0
      ensures capture == old(capture) || fresh(capture)
    {
      capturing := true;
      captureLen := 0;
      if position > 0 {
        captureStart := position - 1;
        Push(recent.value);
        assert body[captureStart..position] == [body[position - 1]];
      } else {
        captureStart := 0;
      }
    }

    /** stream_data_get_capture: a part of the body that was read since the capture began. */
    method GetCapture(start: nat, len: nat) returns (s: string)
      requires Valid() && capturing && captureStart <= start && len <= captureLen - (start - captureStart)
      modifies this`capturing
      ensures Valid() && !capturing && Cursor() == old(Cursor()) && start + len <= |body|
      ensures s == body[start..start + len]
    {
      capturing := false;
      var offset := start - captureStart;
      s := capture[offset..offset + len];
      SliceOf(capture[..captureLen], body, captureStart, offset, len);
      assert s == capture[..captureLen][offset..offset + len];
      assert captureStart + offset == start && captureStart + offset + len == start + len;
    }

    lemma SliceOf(buffer: string, b: string, from: nat, offset: nat, len: nat)
      requires from + |buffer| <= |b| && buffer == b[from..from + |buffer|] && offset + len <= |buffer|
      ensures buffer[offset..offset + len] == b[from + offset..from + offset + len]
    {
      assert forall i {:trigger buffer[i]} :: 0 <= i < |buffer| ==> buffer[i] == b[from + i];
    }

    /** Takes the rest of the body, looking at each byte first. */
    method ReadAll() returns (s: string)
      requires Valid()
      modifies this, conn`pos, capture
      ensures Valid() && s == body[old(Cursor())..] && conn.pos == end
      ensures capture == old(capture) || fresh(capture)
    {
      hide Feed, Captured;
      ghost var first := Cursor();
      s := [];
      assert body[first..first] == [];
      var more := true;
      while more
        invariant Valid() && first <= Cursor() <= |body| && s == body[first..Cursor()]
        invariant !more ==> Cursor() == |body| && recent.None?
        invariant capture == old(capture) || fresh(capture)
        decreases more, |body| - Cursor()
      {
        ghost var at := Cursor();
        var next := Peek();
        var taken := Get();
        if taken.Some? {
          OneMore(body, first, at);
          s := s + [taken.value];
        } else {
          more := false;
        }
      }
      AtEnd();
    }

    lemma OneMore(b: string, from: nat, to: nat)
      requires from <= to < |b|
      ensures b[from..to] + [b[to]] == b[from..to + 1]
    {
    }

    /** At the end of the body the wire has been read up to there, no further. */
    lemma AtEnd()
      requires Valid() && recent.None?
      ensures conn.pos == end
    {
    }
  }

  /** However a body is cut into chunks: read at once or byte by byte, it is the same body, and both readers stop at
      the same byte of the wire, just past the message. */
  method ChunkReadersAgree(ghost cs: seq<Chunk>, ghost last: string, ghost rest: string, wire: string)
    returns (eager: string, lazy: string, eagerEnd: nat, lazyEnd: nat)
    requires ProperAll(cs, last) && wire == Wire(cs, last, rest)
    ensures eager == lazy == Body(cs) && eagerEnd == lazyEnd == Length(cs, last)
    ensures eagerEnd <= |wire| && wire[eagerEnd..] == rest
  {
    hide *;
    var a := new Connection(wire);
    var b := new Connection(wire);
    StartsAt(a, wire);
    StartsAt(b, wire);
    LengthIs(cs, last, rest);
    eager := a.ReceiveChunked(cs, last, rest);
    var s := new Stream.Chunked(b, cs, last, rest);
    lazy := s.ReadAll();
    AllOfIt(Body(cs));
    eagerEnd, lazyEnd := a.pos, b.pos;
  }

  /** The same when the length is told before. */
  method SizedReadersAgree(ghost body: string, ghost rest: string, wire: string, length: nat)
    returns (eager: string, lazy: string, eagerEnd: nat, lazyEnd: nat)
    requires wire == body + rest && length == |body|
    ensures eager == lazy == body && eagerEnd == lazyEnd == length
  {
    hide *;
    var a := new Connection(wire);
    var b := new Connection(wire);
    StartsAt(a, wire);
    StartsAt(b, wire);
    eager := a.ReceiveSized(length, body, rest);
    var s := new Stream.Sized(b, length, body, rest);
    lazy := s.ReadAll();
    AllOfIt(body);
    eagerEnd, lazyEnd := a.pos, b.pos;
  }

  /** However a body is cut into chunks, and whether it is sent in chunks at all: read at once or byte by byte, it is
      the same body, and each two readers stop at the same byte of the wire. */
  method ReadersAgree(ghost cs: seq<Chunk>, ghost last: string, ghost rest: string, chunked: string, sized: string,
                      length: nat)
    returns (bodies: seq<string>, ends: seq<nat>)
    requires ProperAll(cs, last) && chunked == Wire(cs, last, rest) && length == |Body(cs)| && sized == Body(cs) + rest
    ensures bodies == [Body(cs), Body(cs), Body(cs), Body(cs)]
    ensures ends == [Length(cs, last), Length(cs, last), length, length]
    ensures Length(cs, last) <= |chunked| && chunked[Length(cs, last)..] == sized[length..] == rest
  {
    hide *;
    var eager, lazy, eagerEnd, lazyEnd := ChunkReadersAgree(cs, last, rest, chunked);
    var whole, lazyWhole, wholeEnd, lazyWholeEnd := SizedReadersAgree(Body(cs), rest, sized, length);
    bodies, ends := [eager, lazy, whole, lazyWhole], [eagerEnd, lazyEnd, wholeEnd, lazyWholeEnd];
  }

  /** A body that is sent in any pieces, with the sizes printed either way: both readers give the pieces one after the
      other, and stop just past them. */
  method SentIsRead(pieces: seq<string>, digits: string, rest: string) returns (eager: string, lazy: string, end: nat)
    requires (digits == LOWER || digits == UPPER) && forall i :: 0 <= i < |pieces| ==> 0 < |pieces[i]| < 0x8000_0000
    ensures eager == lazy == Joined(pieces) && end == |Sent(pieces, digits)|
  {
    hide *;
    SixteenDigits();
    SentProper(pieces, digits, rest);
    var wire, lazyEnd := Sent(pieces, digits) + rest, 0;
    eager, lazy, end, lazyEnd := ChunkReadersAgree(Chunks(pieces, digits), "0", rest, wire);
    SameEnd(wire, Sent(pieces, digits), end, rest);
  }

  lemma SixteenDigits()
    ensures |LOWER| == |UPPER| == 16
  {
  }

  lemma SameEnd(wire: string, sent: string, end: nat, rest: string)
    requires wire == sent + rest && end <= |wire| && wire[end..] == rest
    ensures end == |sent|
  {
    assert |wire[end..]| == |wire| - end;
  }

  lemma StartsAt(c: Connection, wire: string)
    requires c.wire == wire && c.pos == 0
    ensures forall s {:trigger c.Next(s)} :: wire == s ==> c.Next(s)
  {
    assert wire[0..] == wire;
  }

  lemma AllOfIt(s: string)
    ensures s[0..] == s
  {
  }

  lemma {:induction false} LengthIs(cs: seq<Chunk>, last: string, rest: string)
    ensures Length(cs, last) <= |Wire(cs, last, rest)| && Wire(cs, last, rest)[Length(cs, last)..] == rest
  {
    if cs == [] {
      assert last + (CRLF + (CRLF + rest)) == (last + CRLF + CRLF) + rest;
    } else {
      LengthIs(cs[1..], last, rest);
      var head, more := cs[0].size + CRLF + cs[0].data + CRLF, Wire(cs[1..], last, rest);
      assert Wire(cs, last, rest) == head + more;
      assert (head + more)[|head|..] == more;
    }
  }
}
