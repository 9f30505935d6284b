/** Streaming the response body into a local file (endpoint.py:79-99). */
module Download {

  newtype byte = x: int | 0 <= x < 256

  /** One piece of the body as response.iter_content yields it; it may be empty. */
  type Chunk = seq<byte>

  /** The local file the body is written to, opened with mode 'wb'. */
  class TempFile {
    var data: seq<byte>

    /** open(path, 'wb') creates or truncates the file. */
    constructor Create()
      ensures data == []
    {
      data := [];
    }

    method Write(chunk: Chunk)
      modifies this
      ensures data == old(data) + chunk
    {
      data := data + chunk;
    }

    /** os.path.getsize */
    function Size(): nat
      reads this
    {
      |data|
    }
  }

  /** The chunks in order, joined. */
  function Concat(cs: seq<Chunk>): seq<byte> {
    if cs == [] then [] else Concat(cs[..|cs| - 1]) + cs[|cs| - 1]
  }

  /** The chunks the `if chunk:` test lets through, in order. */
  function NonEmpty(cs: seq<Chunk>): (r: seq<Chunk>)
    ensures |r| <= |cs|
    ensures forall i :: 0 <= i < |r| ==> r[i] != []
  {
    if cs == [] then []
    else if cs[|cs| - 1] == [] then NonEmpty(cs[..|cs| - 1])
    else NonEmpty(cs[..|cs| - 1]) + [cs[|cs| - 1]]
  }

  /** The sum of the chunk lengths. */
  function TotalLength(cs: seq<Chunk>): nat {
    if cs == [] then 0 else TotalLength(cs[..|cs| - 1]) + |cs[|cs| - 1]|
  }

  /** The chunk loop: every non-empty chunk is written in order and counted in
      downloaded_size, so the counter always equals the size of the file. */
  method StreamToFile(chunks: seq<Chunk>) returns (file: TempFile, downloadedSize: nat)
    ensures fresh(file)
    ensures file.data == Concat(NonEmpty(chunks))
    ensures downloadedSize == TotalLength(NonEmpty(chunks))
    ensures downloadedSize == file.Size()
  {
    file := new TempFile.Create();
    downloadedSize := 0;
    for i := 0 to |chunks|
      invariant file.data == Concat(NonEmpty(chunks[..i]))
      invariant downloadedSize == TotalLength(NonEmpty(chunks[..i]))
      invariant downloadedSize == |file.data|
    {
      var chunk := chunks[i];
      assert chunks[..i + 1][..i] == chunks[..i];
      if chunk != [] {
        file.Write(chunk);
        downloadedSize := downloadedSize + |chunk|;
      }
    }
    assert chunks[..|chunks|] == chunks;
  }

  lemma {:induction false} ConcatLength(cs: seq<Chunk>)
    ensures |Concat(cs)| == TotalLength(cs)
  {
    if cs != [] {
      ConcatLength(cs[..|cs| - 1]);
    }
  }

  /** Skipping empty chunks changes nothing in the file. */
  lemma {:induction false} ConcatSkipsEmpty(cs: seq<Chunk>)
    ensures Concat(NonEmpty(cs)) == Concat(cs)
  {
    if cs != [] {
      var init, last := cs[..|cs| - 1], cs[|cs| - 1];
      ConcatSkipsEmpty(init);
      if last != [] {
        var r := NonEmpty(init) + [last];
        assert r[..|r| - 1] == NonEmpty(init);
      } else {
        assert Concat(cs) == Concat(init) + [];
      }
    }
  }

  /** The file is empty exactly when every chunk was empty. */
  lemma {:induction false} ConcatEmptyIff(cs: seq<Chunk>)
    ensures Concat(cs) == [] <==> forall i :: 0 <= i < |cs| ==> cs[i] == []
  {
    if cs != [] {
      var init := cs[..|cs| - 1];
      ConcatEmptyIff(init);
      if Concat(cs) == [] {
        assert |Concat(cs)| == |Concat(init)| + |cs[|cs| - 1]|;
        forall i | 0 <= i < |cs| ensures cs[i] == [] {
          if i < |cs| - 1 { assert cs[i] == init[i]; }
        }
      }
    }
  }

  /** Appending chunks to the stream appends their bytes to the file. */
  lemma {:induction false} ConcatAppend(a: seq<Chunk>, b: seq<Chunk>)
    ensures Concat(a + b) == Concat(a) + Concat(b)
    decreases |b|
  {
    if b == [] {
      assert a + b == a;
    } else {
      var init := b[..|b| - 1];
      assert (a + b)[..|a + b| - 1] == a + init;
      ConcatAppend(a, init);
    }
  }
}
