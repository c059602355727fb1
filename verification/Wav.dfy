/**
 Reading and writing mono 16-bit PCM audio in RIFF/WAVE files.

 Models CLIProxyAPI/examples/realtime-openai-go/wav.go on the bytes of the file.
 */
module Wav {
  import opened Wrappers

  newtype byte = x: int | 0 <= x < 256
  type Bytes = seq<byte>

  const MAX_INPUT: nat := 15 * 1024 * 1024
  const MAX_OUTPUT: nat := 64 * 1024 * 1024
  const MAX_FILE: nat := MAX_INPUT + 1024 * 1024
  const SAMPLE_RATE: nat := 24000
  const BYTES_PER_SAMPLE: nat := 2

  /** Whether four bytes spell a name. */
  predicate Spells(id: Bytes, a: byte, b: byte, c: byte, d: byte) {
    |id| == 4 && id[0] == a && id[1] == b && id[2] == c && id[3] == d
  }

  predicate IsRiff(id: Bytes) { Spells(id, 82, 73, 70, 70) }

  predicate IsWave(id: Bytes) { Spells(id, 87, 65, 86, 69) }

  predicate IsFormat(id: Bytes) { Spells(id, 102, 109, 116, 32) }

  predicate IsData(id: Bytes) { Spells(id, 100, 97, 116, 97) }

  datatype Error =
    | TooLarge | NotWave | BadChunk(id: Bytes) | ShortFormat | TooMuchData | NoFormat
    | WrongFormat | WrongChannels | WrongRate | WrongBits | NoData | IncompleteSample | EmptyOutput

  // ---- little-endian numbers ----------------------------------------------------------

  /** The number of so many bytes, lowest byte first. */
  function Number(b: Bytes): nat {
    if b == [] then 0 else b[0] as nat + 256 * Number(b[1..])
  }

  function Le(n: nat, size: nat): (r: Bytes)
    ensures |r| == size
  {
    if size == 0 then [] else [(n % 256) as byte] + Le(n / 256, size - 1)
  }

  /** How many numbers fit into so many bytes. */
  function Range(size: nat): nat {
    if size == 0 then 1 else 256 * Range(size - 1)
  }

  lemma {:induction false} NumberOfLe(n: nat, size: nat)
    requires n < Range(size)
    ensures Number(Le(n, size)) == n
  {
    if size > 0 {
      NumberOfLe(n / 256, size - 1);
      assert Le(n, size)[1..] == Le(n / 256, size - 1);
    }
  }

  lemma {:induction false} LeOfNumber(b: Bytes)
    ensures Le(Number(b), |b|) == b && Number(b) < Range(|b|)
  {
    if b != [] {
      LeOfNumber(b[1..]);
      assert b == [b[0]] + b[1..];
    }
  }

  lemma WordRange()
    ensures Range(2) == 0x1_0000 && Range(4) == 0x1_0000_0000
  {
    assert Range(1) == 256 && Range(3) == 0x100_0000;
  }

  // ---- reading ------------------------------------------------------------------------

  datatype Format = Format(audioFormat: nat, channels: nat, sampleRate: nat, bitsPerSample: nat)

  datatype State = State(format: Option<Format>, pcm: Bytes)

  function FormatOf(body: Bytes): Format
    requires |body| >= 16
  {
    Format(Number(body[0..2]), Number(body[2..4]), Number(body[4..8]), Number(body[14..16]))
  }

  /** What one chunk contributes; chunks of other kinds are skipped. */
  function Absorb(st: State, id: Bytes, body: Bytes): Result<State, Error> {
    if IsFormat(id) then
      if |body| < 16 then Err(ShortFormat) else Ok(st.(format := Some(FormatOf(body))))
    else if IsData(id) then
      if |st.pcm| + |body| > MAX_INPUT then Err(TooMuchData) else Ok(st.(pcm := st.pcm + body))
    else Ok(st)
  }

  predicate HasHeader(p: Bytes, offset: nat) {
    offset + 8 <= |p|
  }

  function IdAt(p: Bytes, offset: nat): Bytes
    requires HasHeader(p, offset)
  {
    p[offset..offset + 4]
  }

  function SizeAt(p: Bytes, offset: nat): nat
    requires HasHeader(p, offset)
  {
    Number(p[offset + 4..offset + 8])
  }

  /** Where the next chunk starts: bodies of odd length are padded. */
  function NextAt(p: Bytes, offset: nat): nat
    requires HasHeader(p, offset)
  {
    offset + 8 + SizeAt(p, offset) + SizeAt(p, offset) % 2
  }

  /** Takes chunk after chunk; fewer than eight bytes at the end are ignored. */
  function Scan(p: Bytes, offset: nat, st: State): Result<State, Error>
    decreases |p| - offset
  {
    if !HasHeader(p, offset) then Ok(st)
    else
      var id, end := IdAt(p, offset), offset + 8 + SizeAt(p, offset);
      if end > |p| then Err(BadChunk(id))
      else
        var next := Absorb(st, id, p[offset + 8..end]);
        if next.Err? then next else Scan(p, NextAt(p, offset), next.value)
  }

  function Finish(st: State): Result<Bytes, Error> {
    match st.format
    case None => Err(NoFormat)
    case Some(f) =>
      if f.audioFormat != 1 then Err(WrongFormat)
      else if f.channels != 1 then Err(WrongChannels)
      else if f.sampleRate != SAMPLE_RATE then Err(WrongRate)
      else if f.bitsPerSample != 16 then Err(WrongBits)
      else if |st.pcm| == 0 then Err(NoData)
      else if |st.pcm| % BYTES_PER_SAMPLE != 0 then Err(IncompleteSample)
      else Ok(st.pcm)
  }

  const START := State(None, [])

  function Read(payload: Bytes): Result<Bytes, Error> {
    if |payload| > MAX_FILE then Err(TooLarge)
    else if |payload| < 12 || !IsRiff(payload[..4]) || !IsWave(payload[8..12]) then Err(NotWave)
    else
      var st := Scan(payload, 12, START);
      if st.Err? then Err(st.error) else Finish(st.value)
  }

  method TakeChunk(format: Option<Format>, pcm: Bytes, id: Bytes, body: Bytes) returns (r: Result<State, Error>)
    ensures r == Absorb(State(format, pcm), id, body)
  {
    r := Ok(State(format, pcm));
    if IsFormat(id) {
      if |body| < 16 { return Err(ShortFormat); }
      r := Ok(State(Some(FormatOf(body)), pcm));
    } else if IsData(id) {
      if |pcm| + |body| > MAX_INPUT { return Err(TooMuchData); }
      r := Ok(State(format, pcm + body));
    }
  }

  /** The chunk loop over offsets; every access is in bounds. */
  method ScanFile(payload: Bytes) returns (r: Result<State, Error>)
    ensures r == Scan(payload, 12, START)
  {
    var st := START;
    var offset := 12;
    while offset + 8 <= |payload|
      invariant Scan(payload, 12, START) == Scan(payload, offset, st)
      decreases |payload| - offset
    {
      var id := payload[offset..offset + 4];
      var size := Number(payload[offset + 4..offset + 8]);
      var start, end := offset + 8, offset + 8 + size;
      if end > |payload| { return Err(BadChunk(id)); }
      r := TakeChunk(st.format, st.pcm, id, payload[start..end]);
      if r.Err? { return; }
      st, offset := r.value, end;
      if size % 2 != 0 { offset := offset + 1; }
    }
    return Ok(st);
  }

  method ReadFile(payload: Bytes) returns (r: Result<Bytes, Error>)
    ensures r == Read(payload)
  {
    if |payload| > MAX_FILE { return Err(TooLarge); }
    if |payload| < 12 || !IsRiff(payload[..4]) || !IsWave(payload[8..12]) { return Err(NotWave); }
    var scanned := ScanFile(payload);
    if scanned.Err? { return Err(scanned.error); }
    var format, pcm := scanned.value.format, scanned.value.pcm;
    if format.None? { return Err(NoFormat); }
    if format.value.audioFormat != 1 { return Err(WrongFormat); }
    if format.value.channels != 1 { return Err(WrongChannels); }
    if format.value.sampleRate != SAMPLE_RATE { return Err(WrongRate); }
    if format.value.bitsPerSample != 16 { return Err(WrongBits); }
    if |pcm| == 0 { return Err(NoData); }
    if |pcm| % BYTES_PER_SAMPLE != 0 { return Err(IncompleteSample); }
    return Ok(pcm);
  }

  // ---- files as lists of chunks --------------------------------------------------------------

  /** A chunk; a body of odd length is followed by a padding byte. */
  datatype Chunk = Chunk(id: Bytes, body: Bytes, pad: Bytes)

  function RenderOne(c: Chunk): Bytes {
    c.id + Le(|c.body|, 4) + c.body + c.pad
  }

  function Render(chunks: seq<Chunk>): Bytes {
    if chunks == [] then [] else RenderOne(chunks[0]) + Render(chunks[1..])
  }

  ghost predicate Sized(c: Chunk) {
    |c.id| == 4 && |c.body| < 0x1_0000_0000
  }

  /** Every odd body is padded, except that the file may end without the last padding byte. */
  ghost predicate WellFormed(chunks: seq<Chunk>, tail: Bytes) {
    && |tail| < 8
    && (forall i | 0 <= i < |chunks| :: Sized(chunks[i]))
    && forall i | 0 <= i < |chunks| ::
         |chunks[i].pad| == |chunks[i].body| % 2 || (i == |chunks| - 1 && chunks[i].pad == [] && tail == [])
  }

  function Interpret(chunks: seq<Chunk>, st: State): Result<State, Error>
    decreases |chunks|
  {
    if chunks == [] then Ok(st)
    else
      var next := Absorb(st, chunks[0].id, chunks[0].body);
      if next.Err? then next else Interpret(chunks[1..], next.value)
  }

  ghost function From(p: Bytes, offset: nat): Bytes {
    if offset <= |p| then p[offset..] else []
  }

  /** A chunk is found where it was rendered. */
  lemma ChunkFound(p: Bytes, offset: nat, c: Chunk, others: Bytes)
    requires Sized(c) && (|c.pad| == |c.body| % 2 || (c.pad == [] && others == []))
    requires offset <= |p| && p[offset..] == RenderOne(c) + others
    ensures HasHeader(p, offset) && IdAt(p, offset) == c.id && SizeAt(p, offset) == |c.body|
    ensures offset + 8 + |c.body| <= |p| && p[offset + 8..offset + 8 + |c.body|] == c.body
    ensures From(p, NextAt(p, offset)) == others
  {
    var s := p[offset..];
    assert s[..4] == c.id && s[4..8] == Le(|c.body|, 4) && s[8..8 + |c.body|] == c.body;
    assert p[offset + 4..offset + 8] == s[4..8];
    WordRange();
    NumberOfLe(|c.body|, 4);
  }

  lemma ScanStep(p: Bytes, offset: nat, c: Chunk, st: State)
    requires HasHeader(p, offset) && IdAt(p, offset) == c.id && SizeAt(p, offset) == |c.body|
    requires offset + 8 + |c.body| <= |p| && p[offset + 8..offset + 8 + |c.body|] == c.body
    ensures var next := Absorb(st, c.id, c.body);
      Scan(p, offset, st) == if next.Err? then next else Scan(p, NextAt(p, offset), next.value)
  {
  }

  /** Main result: scanning a rendered list of chunks is interpreting the chunks. */
  lemma {:induction false} ScanRender(p: Bytes, offset: nat, chunks: seq<Chunk>, tail: Bytes, st: State)
    requires WellFormed(chunks, tail) && From(p, offset) == Render(chunks) + tail
    ensures Scan(p, offset, st) == Interpret(chunks, st)
    decreases |chunks|
  {
    if chunks != [] {
      var c, others := chunks[0], Render(chunks[1..]) + tail;
      Join(RenderOne(c), Render(chunks[1..]), tail);
      ChunkFound(p, offset, c, others);
      ScanStep(p, offset, c, st);
      var next := Absorb(st, c.id, c.body);
      if next.Ok? { ScanRender(p, NextAt(p, offset), chunks[1..], tail, next.value); }
    }
  }

  lemma Join(a: Bytes, b: Bytes, c: Bytes)
    ensures (a + b) + c == a + (b + c)
  {
  }

  // ---- every file that scans is such a list -----------------------------------------------

  ghost function FirstChunk(p: Bytes, offset: nat): Chunk
    requires HasHeader(p, offset) && offset + 8 + SizeAt(p, offset) <= |p|
  {
    var end, next := offset + 8 + SizeAt(p, offset), NextAt(p, offset);
    Chunk(IdAt(p, offset), p[offset + 8..end], if next <= |p| then p[end..next] else [])
  }

  ghost function Chunks(p: Bytes, offset: nat): seq<Chunk>
    decreases |p| - offset
  {
    if HasHeader(p, offset) && offset + 8 + SizeAt(p, offset) <= |p| then
      [FirstChunk(p, offset)] + Chunks(p, NextAt(p, offset))
    else []
  }

  ghost function Tail(p: Bytes, offset: nat): Bytes
    decreases |p| - offset
  {
    if HasHeader(p, offset) && offset + 8 + SizeAt(p, offset) <= |p| then Tail(p, NextAt(p, offset))
    else From(p, offset)
  }

  /** Conversely, whatever scans without error is a list of chunks and a short tail. */
  lemma {:induction false} ScannedIsRendered(p: Bytes, offset: nat, st: State)
    requires Scan(p, offset, st).Ok?
    ensures WellFormed(Chunks(p, offset), Tail(p, offset))
    ensures Render(Chunks(p, offset)) + Tail(p, offset) == From(p, offset)
    decreases |p| - offset
  {
    if HasHeader(p, offset) {
      var c, next := FirstChunk(p, offset), NextAt(p, offset);
      ScannedIsRendered(p, next, Absorb(st, c.id, c.body).value);
      OneBack(p, offset);
      OneMore(c, Chunks(p, next), Tail(p, next), From(p, next));
      Join(RenderOne(c), Render(Chunks(p, next)), Tail(p, next));
    }
  }

  lemma OneMore(c: Chunk, chunks: seq<Chunk>, tail: Bytes, others: Bytes)
    requires Sized(c) && WellFormed(chunks, tail) && Render(chunks) + tail == others
    requires |c.pad| == |c.body| % 2 || (c.pad == [] && others == [])
    ensures WellFormed([c] + chunks, tail) && Render([c] + chunks) == RenderOne(c) + Render(chunks)
  {
    var all := [c] + chunks;
    assert all[1..] == chunks;
    if chunks != [] { assert |Render(chunks)| >= |RenderOne(chunks[0])| >= 4; }
    assert forall i | 1 <= i < |all| :: all[i] == chunks[i - 1];
  }

  lemma SplitAt(p: Bytes, i: nat, j: nat)
    requires i <= j <= |p|
    ensures p[i..] == p[i..j] + p[j..]
  {
  }

  lemma Reassembled(p: Bytes, offset: nat, size: nat, pad: Bytes, others: Bytes)
    requires offset + 8 + size <= |p|
    requires var end, next := offset + 8 + size, offset + 8 + size + size % 2;
      pad == (if next <= |p| then p[end..next] else []) && others == From(p, next)
    ensures p[offset..offset + 4] + p[offset + 4..offset + 8] + p[offset + 8..offset + 8 + size] + pad + others ==
            p[offset..]
    ensures |pad| == size % 2 || (pad == [] && others == [])
  {
    var end := offset + 8 + size;
    var a, b, c := p[offset..offset + 4], p[offset + 4..offset + 8], p[offset + 8..end];
    SplitAt(p, end, if end + size % 2 <= |p| then end + size % 2 else |p|);
    SplitAt(p, offset + 8, end);
    SplitAt(p, offset + 4, offset + 8);
    SplitAt(p, offset, offset + 4);
    Join(a + b + c, pad, others);
    Join(a + b, c, pad + others);
    Join(a, b, c + (pad + others));
  }

  lemma SizeBack(p: Bytes, offset: nat)
    requires HasHeader(p, offset)
    ensures Le(SizeAt(p, offset), 4) == p[offset + 4..offset + 8] && SizeAt(p, offset) < 0x1_0000_0000
  {
    WordRange();
    LeOfNumber(p[offset + 4..offset + 8]);
  }

  lemma FirstRenders(p: Bytes, offset: nat)
    requires HasHeader(p, offset) && offset + 8 + SizeAt(p, offset) <= |p|
    ensures var c, size := FirstChunk(p, offset), SizeAt(p, offset);
      && |c.body| == size && Sized(c)
      && RenderOne(c) == p[offset..offset + 4] + p[offset + 4..offset + 8] + p[offset + 8..offset + 8 + size] + c.pad
  {
    SizeBack(p, offset);
  }

  /** A chunk cut out of a file renders to the bytes it was cut from. */
  lemma OneBack(p: Bytes, offset: nat)
    requires HasHeader(p, offset) && offset + 8 + SizeAt(p, offset) <= |p|
    ensures var c, others := FirstChunk(p, offset), From(p, NextAt(p, offset));
      && RenderOne(c) + others == p[offset..] && Sized(c)
      && (|c.pad| == |c.body| % 2 || (c.pad == [] && others == []))
  {
    FirstRenders(p, offset);
    Reassembled(p, offset, SizeAt(p, offset), FirstChunk(p, offset).pad, From(p, NextAt(p, offset)));
  }

  // ---- what a list of chunks means ----------------------------------------------------------

  /** The audio: all data bodies in order, whatever stands between them. */
  function AudioOf(chunks: seq<Chunk>): Bytes {
    if chunks == [] then []
    else (if IsData(chunks[0].id) then chunks[0].body else []) + AudioOf(chunks[1..])
  }

  /** The last format chunk counts. */
  function LastFormat(chunks: seq<Chunk>): Option<Format>
    requires FormatsComplete(chunks)
  {
    if chunks == [] then None
    else if IsFormat(chunks[|chunks| - 1].id) then Some(FormatOf(chunks[|chunks| - 1].body))
    else LastFormat(chunks[..|chunks| - 1])
  }

  predicate FormatsComplete(chunks: seq<Chunk>) {
    forall i | 0 <= i < |chunks| && IsFormat(chunks[i].id) :: |chunks[i].body| >= 16
  }

  lemma {:induction false} LastFormatFrom(chunks: seq<Chunk>)
    requires FormatsComplete(chunks) && chunks != []
    ensures LastFormat(chunks) ==
      if LastFormat(chunks[1..]).Some? then LastFormat(chunks[1..])
      else if IsFormat(chunks[0].id) then Some(FormatOf(chunks[0].body)) else None
  {
    var last := chunks[|chunks| - 1];
    if |chunks| == 1 {
      assert LastFormat(chunks[..0]) == None && LastFormat(chunks[1..]) == None;
    } else if !IsFormat(last.id) {
      LastFormatFrom(chunks[..|chunks| - 1]);
      assert chunks[1..][..|chunks| - 2] == chunks[..|chunks| - 1][1..];
    }
  }

  /** Chunks are accepted exactly if formats are complete and the audio is not too long; then they mean this. */
  lemma {:induction false} InterpretMeans(chunks: seq<Chunk>, st: State)
    requires |st.pcm| <= MAX_INPUT
    ensures Interpret(chunks, st).Ok? <==> FormatsComplete(chunks) && |st.pcm| + |AudioOf(chunks)| <= MAX_INPUT
    ensures Interpret(chunks, st).Ok? ==> (Interpret(chunks, st).value ==
      State(if LastFormat(chunks).Some? then LastFormat(chunks) else st.format, st.pcm + AudioOf(chunks)))
    decreases |chunks|
  {
    if chunks != [] {
      var c := chunks[0];
      var next := Absorb(st, c.id, c.body);
      if next.Ok? {
        InterpretMeans(chunks[1..], next.value);
        var own := if IsData(c.id) then c.body else [];
        assert next.value.pcm == st.pcm + own;
        assert st.pcm + own + AudioOf(chunks[1..]) == st.pcm + (own + AudioOf(chunks[1..]));
        if FormatsComplete(chunks) { LastFormatFrom(chunks); }
      }
    }
  }

  ghost predicate Playable(f: Option<Format>) {
    f.Some? && f.value.audioFormat == 1 && f.value.channels == 1 && f.value.sampleRate == SAMPLE_RATE &&
    f.value.bitsPerSample == 16
  }

  lemma FinishMeans(st: State)
    ensures Finish(st).Ok? <==> Playable(st.format) && 0 < |st.pcm| && |st.pcm| % 2 == 0
    ensures Finish(st).Ok? ==> Finish(st).value == st.pcm
  {
  }

  lemma FromStart(chunks: seq<Chunk>)
    ensures Interpret(chunks, START).Ok? <==> FormatsComplete(chunks) && |AudioOf(chunks)| <= MAX_INPUT
    ensures Interpret(chunks, START).Ok? ==> Interpret(chunks, START).value == State(LastFormat(chunks), AudioOf(chunks))
  {
    InterpretMeans(chunks, START);
  }

  /**
     Main result: a RIFF/WAVE file of well-formed chunks gives exactly the concatenation of its
     data chunks, regardless of other chunks, if the limits are met and the last format is right.
   */
  lemma ReadMeans(payload: Bytes, chunks: seq<Chunk>, tail: Bytes)
    requires 12 <= |payload| <= MAX_FILE && IsRiff(payload[..4]) && IsWave(payload[8..12])
    requires WellFormed(chunks, tail) && payload[12..] == Render(chunks) + tail
    ensures Read(payload).Ok? <==>
      && FormatsComplete(chunks) && Playable(LastFormat(chunks))
      && 0 < |AudioOf(chunks)| <= MAX_INPUT && |AudioOf(chunks)| % 2 == 0
    ensures Read(payload).Ok? ==> Read(payload).value == AudioOf(chunks)
  {
    ScanRender(payload, 12, chunks, tail, START);
    FromStart(chunks);
    if Interpret(chunks, START).Ok? { FinishMeans(State(LastFormat(chunks), AudioOf(chunks))); }
  }

  /** And every file that is read is of that form. */
  lemma ReadableIsRendered(payload: Bytes)
    requires Read(payload).Ok?
    ensures |payload| >= 12 && WellFormed(Chunks(payload, 12), Tail(payload, 12))
    ensures payload[12..] == Render(Chunks(payload, 12)) + Tail(payload, 12)
    ensures Read(payload).value == AudioOf(Chunks(payload, 12))
  {
    ScannedIsRendered(payload, 12, START);
    ReadMeans(payload, Chunks(payload, 12), Tail(payload, 12));
  }

  // ---- writing --------------------------------------------------------------------------------

  function FormatBody(): Bytes {
    Le(1, 2) + Le(1, 2) + Le(SAMPLE_RATE, 4) + Le(SAMPLE_RATE * BYTES_PER_SAMPLE, 4) + Le(BYTES_PER_SAMPLE, 2) + Le(16, 2)
  }

  /** The chunks of a written file. */
  function WrittenChunks(pcm: Bytes): seq<Chunk> {
    [Chunk([102, 109, 116, 32], FormatBody(), []), Chunk([100, 97, 116, 97], pcm, [])]
  }

  function Header(size: nat): Bytes {
    [82, 73, 70, 70] + Le(size, 4) + [87, 65, 86, 69]
  }

  function Written(pcm: Bytes): Result<Bytes, Error> {
    if |pcm| == 0 then Err(EmptyOutput)
    else if |pcm| > MAX_OUTPUT then Err(TooMuchData)
    else if |pcm| % BYTES_PER_SAMPLE != 0 then Err(IncompleteSample)
    else Ok(Header(36 + |pcm|) + Render(WrittenChunks(pcm)))
  }

  lemma Assembled(h: Bytes, a: Bytes, b: Bytes, c: Bytes, d: Bytes, e: Bytes, f: Bytes)
    ensures h + a + b + c + d + e + f == h + ((a + b + c) + (d + e + f))
  {
    Join(h + a + b + c, d + e, f);
    Join(h + a + b + c, d, e);
    Join(h + a + b, c, d + e + f);
  }

  lemma RenderTwo(c: Chunk, d: Chunk)
    ensures Render([c, d]) == RenderOne(c) + RenderOne(d)
  {
    assert [c, d][1..] == [d] && [d][1..] == [];
    assert Render([d]) == RenderOne(d) + [];
  }

  /** The writer fills its buffer value by value. */
  method WriteFile(pcm: Bytes) returns (r: Result<Bytes, Error>)
    ensures r == Written(pcm)
  {
    if |pcm| == 0 { return Err(EmptyOutput); }
    if |pcm| > MAX_OUTPUT { return Err(TooMuchData); }
    if |pcm| % BYTES_PER_SAMPLE != 0 { return Err(IncompleteSample); }
    var payload := Header(36 + |pcm|);
    ghost var header := payload;
    payload := payload + [102, 109, 116, 32] + Le(16, 4) + FormatBody();
    payload := payload + [100, 97, 116, 97] + Le(|pcm|, 4);
    payload := payload + pcm;
    TwoChunks(header, pcm);
    return Ok(payload);
  }

  lemma TwoChunks(header: Bytes, pcm: Bytes)
    ensures header + [102, 109, 116, 32] + Le(16, 4) + FormatBody() + [100, 97, 116, 97] + Le(|pcm|, 4) + pcm ==
            header + Render(WrittenChunks(pcm))
  {
    var chunks := WrittenChunks(pcm);
    Assembled(header, [102, 109, 116, 32], Le(16, 4), FormatBody(), [100, 97, 116, 97], Le(|pcm|, 4), pcm);
    RenderTwo(chunks[0], chunks[1]);
    BareChunk(chunks[0], 16);
    BareChunk(chunks[1], |pcm|);
  }

  lemma BareChunk(c: Chunk, size: nat)
    requires c.pad == [] && |c.body| == size
    ensures RenderOne(c) == c.id + Le(size, 4) + c.body
  {
  }

  lemma FormatBodyReads()
    ensures |FormatBody()| == 20 - 4 && FormatOf(FormatBody()) == Format(1, 1, SAMPLE_RATE, 16)
  {
    var b := FormatBody();
    WordRange();
    NumberOfLe(1, 2);
    NumberOfLe(SAMPLE_RATE, 4);
    NumberOfLe(16, 2);
    assert b[0..2] == Le(1, 2) && b[2..4] == Le(1, 2) && b[4..8] == Le(SAMPLE_RATE, 4) && b[14..16] == Le(16, 2);
  }

  lemma TwoMean(c: Chunk, d: Chunk)
    requires IsFormat(c.id) && |c.body| >= 16 && IsData(d.id)
    ensures FormatsComplete([c, d]) && LastFormat([c, d]) == Some(FormatOf(c.body)) && AudioOf([c, d]) == d.body
  {
    var all := [c, d];
    assert all[1..] == [d] && [d][1..] == [] && all[..1] == [c];
    assert AudioOf([d]) == d.body + [];
  }

  lemma WrittenMeans(pcm: Bytes)
    requires Written(pcm).Ok?
    ensures WellFormed(WrittenChunks(pcm), []) && FormatsComplete(WrittenChunks(pcm))
    ensures AudioOf(WrittenChunks(pcm)) == pcm && Playable(LastFormat(WrittenChunks(pcm)))
  {
    FormatBodyReads();
    TwoMean(WrittenChunks(pcm)[0], WrittenChunks(pcm)[1]);
  }

  lemma WrittenHeader(pcm: Bytes)
    requires Written(pcm).Ok?
    ensures var payload := Written(pcm).value;
      && |payload| == 44 + |pcm| && IsRiff(payload[..4]) && IsWave(payload[8..12])
      && payload[12..] == Render(WrittenChunks(pcm)) + []
  {
    FormatBodyReads();
    var chunks, h := WrittenChunks(pcm), Header(36 + |pcm|);
    RenderTwo(chunks[0], chunks[1]);
    assert h[..4] == [82, 73, 70, 70] && h[8..12] == [87, 65, 86, 69];
    HeaderFirst(h, Render(chunks));
  }

  lemma HeaderFirst(h: Bytes, others: Bytes)
    requires |h| == 12
    ensures (h + others)[..4] == h[..4] && (h + others)[8..12] == h[8..12] && (h + others)[12..] == others + []
  {
  }

  /** Main result: what the writer writes is read back exactly if the audio is within the input limit. */
  lemma WriteRead(pcm: Bytes)
    requires Written(pcm).Ok?
    ensures Read(Written(pcm).value) == Ok(pcm) <==> |pcm| <= MAX_INPUT
  {
    WrittenMeans(pcm);
    WrittenHeader(pcm);
    if 44 + |pcm| <= MAX_FILE { ReadMeans(Written(pcm).value, WrittenChunks(pcm), []); }
  }
}
