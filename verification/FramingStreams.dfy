/** The two transform streams with the state they keep between chunks. */
module FramingStreams {
  import opened Wrappers
  import opened Framing

  /** A cipher or decipher in use. */
  class CipherObject {
    const cipher: Cipher
    var input: Bytes

    constructor (cipher: Cipher)
      ensures this.cipher == cipher && input == []
    {
      this.cipher, input := cipher, [];
    }

    /** What the chunk releases. */
    method Update(chunk: Bytes) returns (out: Bytes)
      requires Lawful(cipher)
      modifies this
      ensures input == old(input) + chunk
      ensures cipher.released(old(input)) + out == cipher.released(input)
    {
      out := cipher.released(input + chunk)[|cipher.released(input)|..];
      input := input + chunk;
    }

    method Final() returns (out: Option<Bytes>)
      requires Lawful(cipher)
      ensures out.Some? <==> cipher.whole(input).Some?
      ensures out.Some? ==> cipher.released(input) + out.value == cipher.whole(input).value
    {
      var whole := cipher.whole(input);
      out := if whole.Some? then Some(whole.value[|cipher.released(input)|..]) else None;
    }
  }

  lemma NothingYet(c: Cipher)
    requires Lawful(c)
    ensures c.released([]) == [] && Concat([]) == []
  {
  }

  class EncryptStream {
    const suite: Suite
    /** The key in use and a random initialisation vector, drawn at the first chunk. */
    const params: Params
    var cipher: CipherObject?
    var appended: bool
    var output: Bytes
    /** The chunks written so far. */
    ghost var chunks: seq<Bytes>

    ghost predicate Valid()
      reads this, cipher
    {
      && Lawful(suite.cipher(params))
      && (cipher == null <==> chunks == []) && (appended <==> chunks != [])
      && (cipher == null ==> output == [])
      && (cipher != null ==>
            && cipher.cipher == suite.cipher(params) && cipher.input == Concat(chunks)
            && output == (suite.render(params) + [NEWLINE]) + cipher.cipher.released(cipher.input))
    }

    constructor (suite: Suite, params: Params)
      requires Lawful(suite.cipher(params))
      ensures Valid() && this.suite == suite && this.params == params && chunks == [] && cipher == null
    {
      this.suite, this.params := suite, params;
      cipher, appended, output, chunks := null, false, [], [];
    }

    method Transform(chunk: Bytes)
      requires Valid()
      modifies this, cipher
      ensures Valid() && chunks == old(chunks) + [chunk]
      ensures cipher != null && (if old(cipher) == null then fresh(cipher) else cipher == old(cipher))
    {
      hide Concat, Lawful;
      ConcatOneMore(chunks, chunk);
      NothingYet(suite.cipher(params));
      chunks := chunks + [chunk];
      if cipher == null {
        cipher := new CipherObject(suite.cipher(params));
      }
      var header := suite.render(params) + [NEWLINE];
      if !appended {
        output := output + header;
        appended := true;
      }
      ghost var before := cipher.cipher.released(cipher.input);
      assert output == header + before;
      var out := cipher.Update(chunk);
      assert output + out == header + (before + out);
      output := output + out;
    }

    /** Fails on a stream that had no chunk. */
    method Flush() returns (done: bool)
      requires Valid()
      modifies this`output
      ensures done <==> Encrypted(suite, params, chunks).Some?
      ensures done ==> output == Encrypted(suite, params, chunks).value
    {
      if cipher == null {
        return false;
      }
      var out := cipher.Final();
      if out.None? {
        return false;
      }
      output := output + out.value;
      return true;
    }
  }

  class DecryptStream {
    const suite: Suite
    var headerBuffer: Bytes
    var decipher: CipherObject?
    var failed: bool
    var output: Bytes
    /** The chunks written so far and the key parameters found in the header. */
    ghost var chunks: seq<Bytes>
    ghost var params: Option<Params>

    ghost predicate Valid()
      reads this, decipher
    {
      && (forall p: Params :: Lawful(suite.decipher(p)))
      && (decipher == null <==> params.None?)
      && ReceiveAll(suite, chunks)
           == Receiver(headerBuffer, params, if decipher == null then [] else decipher.input, failed)
      && (decipher == null ==> output == [])
      && (decipher != null ==>
           decipher.cipher == suite.decipher(params.value) && output == decipher.cipher.released(decipher.input))
    }

    constructor (suite: Suite)
      requires forall p: Params :: Lawful(suite.decipher(p))
      ensures Valid() && this.suite == suite && chunks == [] && decipher == null
    {
      this.suite := suite;
      headerBuffer, decipher, failed, output := [], null, false, [];
      chunks, params := [], None;
    }

    /** Past a header that does not parse the stream is dead. */
    method Transform(chunk: Bytes)
      requires Valid()
      modifies this, decipher
      ensures Valid() && chunks == old(chunks) + [chunk]
      ensures old(decipher) != null ==> decipher == old(decipher)
      ensures old(decipher) == null && decipher != null ==> fresh(decipher)
    {
      hide Lawful, IndexOf;
      assert (chunks + [chunk])[..|chunks|] == chunks;
      chunks := chunks + [chunk];
      if failed {
        return;
      }
      if |headerBuffer| < 2000 && decipher == null {
        headerBuffer := headerBuffer + chunk;
        var headerEnd := IndexOf(headerBuffer, NEWLINE);
        if headerEnd < |headerBuffer| {
          var parsed := suite.parse(headerBuffer[..headerEnd]);
          if parsed.None? {
            failed := true;
            return;
          }
          params := parsed;
          NothingYet(suite.decipher(parsed.value));
          decipher := new CipherObject(suite.decipher(parsed.value));
          var data := headerBuffer[headerEnd + 1..];
          assert [] + data == data;
          var out := decipher.Update(data);
          output := output + out;
        }
      } else if decipher != null {
        var out := decipher.Update(chunk);
        output := output + out;
      }
    }

    method Flush() returns (done: bool)
      requires Valid()
      modifies this`output
      ensures done <==> Decrypted(suite, ReceiveAll(suite, chunks)).Some?
      ensures done ==> output == Decrypted(suite, ReceiveAll(suite, chunks)).value
    {
      if failed {
        return false;
      }
      if decipher != null {
        var out := decipher.Final();
        if out.None? {
          return false;
        }
        output := output + out.value;
      }
      return true;
    }
  }

  method SendThrough(suite: Suite, params: Params, plain: seq<Bytes>) returns (sent: Option<Bytes>)
    requires Lawful(suite.cipher(params))
    ensures sent == Encrypted(suite, params, plain)
  {
    hide Lawful, Encrypted;
    var stream := new EncryptStream(suite, params);
    var i := 0;
    while i < |plain|
      invariant i <= |plain| && stream.Valid() && stream.chunks == plain[..i]
      invariant stream.suite == suite && stream.params == params
      invariant fresh(stream) && (stream.cipher != null ==> fresh(stream.cipher))
    {
      stream.Transform(plain[i]);
      i := i + 1;
    }
    assert plain[..|plain|] == plain;
    var done := stream.Flush();
    sent := if done then Some(stream.output) else None;
  }

  method ReceiveThrough(suite: Suite, cut: seq<Bytes>) returns (received: Option<Bytes>)
    requires forall p: Params :: Lawful(suite.decipher(p))
    ensures received == Decrypted(suite, ReceiveAll(suite, cut))
  {
    hide Lawful, Decrypted, ReceiveAll;
    var stream := new DecryptStream(suite);
    var i := 0;
    while i < |cut|
      invariant i <= |cut| && stream.Valid() && stream.chunks == cut[..i] && stream.suite == suite
      invariant fresh(stream) && (stream.decipher != null ==> fresh(stream.decipher))
    {
      stream.Transform(cut[i]);
      i := i + 1;
    }
    assert cut[..|cut|] == cut;
    var done := stream.Flush();
    received := if done then Some(stream.output) else None;
  }

  /** Sending a stream of at least one chunk and receiving it, cut anyhow on its way, gives the plaintext back. */
  method RoundTrip(suite: Suite, params: Params, plain: seq<Bytes>, cut: Bytes -> seq<Bytes>)
    returns (received: Option<Bytes>)
    requires Inverse(suite, params) && |suite.render(params)| < 2000
    requires Lawful(suite.cipher(params)) && forall p: Params :: Lawful(suite.decipher(p))
    requires plain != [] && forall s: Bytes :: Concat(cut(s)) == s
    ensures received == Some(Concat(plain))
  {
    var sent := SendThrough(suite, params, plain);
    DecryptsEncrypted(suite, params, plain, cut(sent.value));
    received := ReceiveThrough(suite, cut(sent.value));
  }
}
