/** Encrypted streams: a header line in the clear, then the ciphertext, cut into chunks anyhow on either side. Ciphers
    are abstract: bytes are released as they come in, the rest at the end. */
module Framing {
  import opened Wrappers

  type Byte = b: int | 0 <= b < 256
  type Bytes = seq<Byte>

  const NEWLINE: Byte := 10

  /** What has come out after some input, and what has come out in all when the input ends there; ending fails where
      the input is malformed. */
  datatype Cipher = Cipher(released: Bytes -> Bytes, whole: Bytes -> Option<Bytes>)

  ghost predicate Lawful(c: Cipher) {
    && c.released([]) == []
    && (forall a: Bytes, b: Bytes :: c.released(a) <= c.released(a + b))
    && (forall a: Bytes :: c.whole(a).Some? ==> c.released(a) <= c.whole(a).value)
  }

  /** Key id, initialisation vector, key length and digest. */
  datatype Params = Params(id: nat, iv: nat, len: nat, digest: nat)

  datatype Suite = Suite(render: Params -> Bytes, parse: Bytes -> Option<Params>, cipher: Params -> Cipher,
    decipher: Params -> Cipher)

  /** The header parses back and has no line break; the cipher never fails and the decipher inverts it. */
  ghost predicate Inverse(s: Suite, p: Params) {
    && NEWLINE !in s.render(p) && s.parse(s.render(p)) == Some(p)
    && forall x: Bytes :: s.cipher(p).whole(x).Some? && s.decipher(p).whole(s.cipher(p).whole(x).value) == Some(x)
  }

  function Concat(chunks: seq<Bytes>): Bytes {
    if chunks == [] then [] else Concat(chunks[..|chunks|-1]) + chunks[|chunks|-1]
  }

  lemma ConcatOneMore(chunks: seq<Bytes>, chunk: Bytes)
    ensures Concat(chunks + [chunk]) == Concat(chunks) + chunk
  {
    assert (chunks + [chunk])[..|chunks|] == chunks;
  }

  function IndexOf(s: Bytes, b: Byte): (i: nat)
    ensures i <= |s|
    ensures i < |s| ==> s[i] == b
    ensures forall j :: 0 <= j < i ==> s[j] != b
  {
    if s == [] || s[0] == b then 0 else 1 + IndexOf(s[1..], b)
  }

  // ---- the receiving side ----

  /** The header buffer, the decipher once the header line is complete, and what the decipher has been given. A header
      that does not parse stops the stream. */
  datatype Receiver = Receiver(buffer: Bytes, params: Option<Params>, consumed: Bytes, failed: bool)

  const START := Receiver([], None, [], false)

  function Receive(s: Suite, r: Receiver, chunk: Bytes): Receiver {
    if r.failed then r
    else if |r.buffer| < 2000 && r.params.None? then
      var buffer := r.buffer + chunk;
      var end := IndexOf(buffer, NEWLINE);
      if end == |buffer| then r.(buffer := buffer)
      else
        var params := s.parse(buffer[..end]);
        if params.None? then r.(buffer := buffer, failed := true)
        else Receiver(buffer, params, buffer[end + 1..], false)
    else if r.params.Some? then r.(consumed := r.consumed + chunk)
    else r
  }

  function ReceiveAll(s: Suite, chunks: seq<Bytes>): Receiver {
    if chunks == [] then START else Receive(s, ReceiveAll(s, chunks[..|chunks|-1]), chunks[|chunks|-1])
  }

  /** All that is pushed by the end of the stream; None where ending fails. */
  function Decrypted(s: Suite, r: Receiver): Option<Bytes> {
    if r.failed then None
    else if r.params.Some? then s.decipher(r.params.value).whole(r.consumed)
    else Some([])
  }

  lemma FirstNewline(header: Bytes, rest: Bytes)
    requires NEWLINE !in header
    ensures IndexOf(header, NEWLINE) == |header|
    ensures IndexOf(header + [NEWLINE] + rest, NEWLINE) == |header|
  {
    var s := header + [NEWLINE] + rest;
    assert s[|header|] == NEWLINE;
    assert forall i :: 0 <= i < |header| ==> s[i] == header[i] && header[i] in header;
  }

  /** However the stream is cut: up to the line break everything is kept in the buffer, and from then on exactly the
      bytes after it are handed to the decipher. */
  lemma {:induction false} HandsOverCiphertext(s: Suite, header: Bytes, body: Bytes, chunks: seq<Bytes>)
    requires NEWLINE !in header && |header| < 2000 && s.parse(header).Some?
    requires Concat(chunks) <= header + [NEWLINE] + body
    ensures var r, seen := ReceiveAll(s, chunks), Concat(chunks);
      if |seen| <= |header| then r == Receiver(seen, None, [], false)
      else r.params == s.parse(header) && !r.failed && r.consumed == seen[|header| + 1..]
  {
    if chunks != [] {
      var init, chunk := chunks[..|chunks|-1], chunks[|chunks|-1];
      var before, seen := Concat(init), Concat(chunks);
      HandsOverCiphertext(s, header, body, init);
      if |before| <= |header| {
        if |seen| <= |header| {
          assert seen == header[..|seen|];
          assert NEWLINE !in seen;
        } else {
          assert seen == header + [NEWLINE] + seen[|header| + 1..];
          FirstNewline(header, seen[|header| + 1..]);
          assert seen[..|header|] == header;
        }
      } else {
        assert seen[|header| + 1..] == before[|header| + 1..] + chunk;
      }
    }
  }

  /** The stream a byte at a time. */
  function Single(s: Bytes): seq<Bytes> { seq(|s|, i requires 0 <= i < |s| => [s[i]]) }

  lemma {:induction false} SingleConcat(s: Bytes)
    ensures Concat(Single(s)) == s
  {
    if s != [] {
      var init := s[..|s|-1];
      SingleConcat(init);
      assert Single(s)[..|s|-1] == Single(init);
    }
  }

  /** A longer header cut into single bytes fills the buffer, and the rest of the stream is dropped. */
  lemma {:induction false} LongHeaderLost(s: Suite, stream: Bytes)
    requires |stream| >= 2000 && NEWLINE !in stream[..2000]
    ensures ReceiveAll(s, Single(stream)) == Receiver(stream[..2000], None, [], false)
  {
    var init := stream[..|stream|-1];
    assert Single(stream)[..|stream|-1] == Single(init);
    if |stream| == 2000 {
      ShortStreamKept(s, init);
      assert stream[..2000] == stream == init + [stream[1999]];
    } else {
      assert init[..2000] == stream[..2000];
      LongHeaderLost(s, init);
    }
  }

  lemma {:induction false} ShortStreamKept(s: Suite, stream: Bytes)
    requires |stream| < 2000 && NEWLINE !in stream
    ensures ReceiveAll(s, Single(stream)) == Receiver(stream, None, [], false)
  {
    if stream != [] {
      var init := stream[..|stream|-1];
      assert Single(stream)[..|stream|-1] == Single(init);
      ShortStreamKept(s, init);
      assert stream == init + [stream[|stream|-1]];
    }
  }

  ghost predicate GetsThrough(s: Suite, header: Bytes, body: Bytes, chunks: seq<Bytes>) {
    var r := ReceiveAll(s, chunks);
    !r.failed && r.params == s.parse(header) && r.consumed == body
  }

  /** A header line gets through every chunking exactly when it is shorter than 2000 bytes. */
  lemma GetsThroughIff(s: Suite, header: Bytes, body: Bytes)
    requires NEWLINE !in header && s.parse(header).Some?
    ensures (forall chunks :: Concat(chunks) == header + [NEWLINE] + body ==> GetsThrough(s, header, body, chunks))
            <==> |header| < 2000
  {
    var stream := header + [NEWLINE] + body;
    if |header| < 2000 {
      forall chunks | Concat(chunks) == stream ensures GetsThrough(s, header, body, chunks) {
        HandsOverCiphertext(s, header, body, chunks);
      }
    } else {
      SingleConcat(stream);
      assert stream[..2000] == header[..2000];
      LongHeaderLost(s, stream);
      assert !GetsThrough(s, header, body, Single(stream));
    }
  }

  // ---- both sides ----

  /** All that the sending side pushes for these chunks; ending a stream without chunks fails. */
  function Encrypted(s: Suite, p: Params, chunks: seq<Bytes>): Option<Bytes> {
    if chunks == [] then None
    else
      var whole := s.cipher(p).whole(Concat(chunks));
      if whole.Some? then Some(s.render(p) + [NEWLINE] + whole.value) else None
  }

  /** Decrypting what was encrypted gives the plaintext, for every chunking on both sides. */
  lemma DecryptsEncrypted(s: Suite, p: Params, plain: seq<Bytes>, cut: seq<Bytes>)
    requires Inverse(s, p) && |s.render(p)| < 2000
    requires plain != []
    requires Encrypted(s, p, plain) == Some(Concat(cut))
    ensures Decrypted(s, ReceiveAll(s, cut)) == Some(Concat(plain))
  {
    var body := s.cipher(p).whole(Concat(plain)).value;
    HandsOverCiphertext(s, s.render(p), body, cut);
    assert Concat(cut)[|s.render(p)| + 1..] == body;
  }
}

