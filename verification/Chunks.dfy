/**
  The exported trace file seen as a list of chunks: every fetch zero-pads what is already there
  to a multiple of eight bytes and then appends the bytes it read.
*/
module Chunks {
  import opened AddressArithmetic

  newtype byte = x: int | 0 <= x < 256

  function Zeros(n: nat): (z: seq<byte>) {
    seq(n, _ => 0)
  }

  function Padded(s: seq<byte>): seq<byte> {
    s + Zeros(Gap(|s|))
  }

  lemma PaddedPlain(s: seq<byte>)
    requires |s| % 8 == 0
    ensures Padded(s) == s
  {
    assert Gap(|s|) == 0;
  }

  /** The file after one more fetch that read `chunk`. */
  function Append(file: seq<byte>, chunk: seq<byte>): seq<byte> {
    Padded(file) + chunk
  }

  /** The file after fetching `chunks` in order. */
  function Layout(chunks: seq<seq<byte>>): seq<byte> {
    if chunks == [] then []
    else Append(Layout(chunks[..|chunks| - 1]), chunks[|chunks| - 1])
  }

  /** The plain concatenation. */
  function Flatten(chunks: seq<seq<byte>>): seq<byte> {
    if chunks == [] then []
    else Flatten(chunks[..|chunks| - 1]) + chunks[|chunks| - 1]
  }

  lemma LayoutSnoc(chunks: seq<seq<byte>>, c: seq<byte>)
    ensures Layout(chunks + [c]) == Append(Layout(chunks), c)
    ensures Flatten(chunks + [c]) == Flatten(chunks) + c
  {
    assert (chunks + [c])[..|chunks|] == chunks;
  }

  /** What export_trace hands to fwrite: the bytes below the cursor, or a size below zero. */
  datatype Export = File(bytes: seq<byte>) | NegativeSize

  /** The export when a failed read left the cursor `back` bytes before the end of `whole`. */
  function UpTo(whole: seq<byte>, back: nat): (r: Export)
    ensures back == 0 ==> r == File(whole)
  {
    assert whole[..|whole|] == whole;
    if back <= |whole| then File(whole[..|whole| - back]) else NegativeSize
  }

  /** Where chunk `i` starts in the file. */
  function Offset(chunks: seq<seq<byte>>, i: nat): nat
    requires i < |chunks|
  {
    |Padded(Layout(chunks[..i]))|
  }

  /**
    No fetched byte is lost or moved by later fetches: chunk `i` sits intact at its own offset,
    which is a multiple of eight.
  */
  lemma {:induction false} ChunkIntact(chunks: seq<seq<byte>>, i: nat)
    requires i < |chunks|
    ensures Offset(chunks, i) % 8 == 0
    ensures Offset(chunks, i) + |chunks[i]| <= |Layout(chunks)|
    ensures Layout(chunks)[Offset(chunks, i)..Offset(chunks, i) + |chunks[i]|] == chunks[i]
    decreases |chunks|
  {
    var n := |chunks| - 1;
    GapIsLeast(|Layout(chunks[..i])|);
    if i < n {
      ChunkIntact(chunks[..n], i);
      assert chunks[..n][..i] == chunks[..i];
    }
  }

  /** The padding never removes a byte and costs at most seven bytes a fetch. */
  lemma {:induction false} LayoutLength(chunks: seq<seq<byte>>)
    ensures |Flatten(chunks)| <= |Layout(chunks)| <= |Flatten(chunks)| + 7 * |chunks|
  {
    if chunks != [] {
      var n := |chunks| - 1;
      LayoutLength(chunks[..n]);
      GapIsLeast(|Layout(chunks[..n])|);
    }
  }

  ghost predicate AlignedPrefixes(chunks: seq<seq<byte>>) {
    forall j | 0 < j < |chunks| :: |Flatten(chunks[..j])| % 8 == 0
  }

  /** The file and the concatenation agree exactly when they agreed before an aligned last chunk. */
  lemma PlainStep(file: seq<byte>, plain: seq<byte>, chunk: seq<byte>)
    requires |plain| <= |file|
    ensures Append(file, chunk) == plain + chunk <==> file == plain && |file| % 8 == 0
  {
    GapIsLeast(|file|);
    if Append(file, chunk) == plain + chunk {
      assert |Append(file, chunk)| == |file| + Gap(|file|) + |chunk|;
      assert file == Append(file, chunk)[..|file|];
      assert plain == (plain + chunk)[..|file|];
    } else if |file| % 8 == 0 {
      PaddedPlain(file);
    }
  }

  /** The file is the plain concatenation exactly when every chunk but the last ends aligned. */
  lemma {:induction false} PlainIff(chunks: seq<seq<byte>>)
    ensures Layout(chunks) == Flatten(chunks) <==> AlignedPrefixes(chunks)
  {
    if chunks != [] {
      var n := |chunks| - 1;
      var front := chunks[..n];
      PlainIff(front);
      LayoutLength(front);
      PlainStep(Layout(front), Flatten(front), chunks[n]);
      PrefixesStep(chunks);
    }
  }

  lemma PrefixesStep(chunks: seq<seq<byte>>)
    requires chunks != []
    ensures
      var front := chunks[..|chunks| - 1];
      AlignedPrefixes(chunks) <==> AlignedPrefixes(front) && |Flatten(front)| % 8 == 0
  {
    var n := |chunks| - 1;
    var front := chunks[..n];
    assert forall j | 0 < j < n :: front[..j] == chunks[..j];
    if front != [] && AlignedPrefixes(chunks) {
      assert |Flatten(chunks[..n])| % 8 == 0;
    }
  }

  /** In particular when every chunk length is a multiple of eight. */
  lemma {:induction false} MultiplesOfEight(chunks: seq<seq<byte>>)
    requires forall c | c in chunks :: |c| % 8 == 0
    ensures Layout(chunks) == Flatten(chunks) && |Layout(chunks)| % 8 == 0
  {
    if chunks != [] {
      var front := chunks[..|chunks| - 1];
      MultiplesOfEight(front);
      var last := chunks[|chunks| - 1];
      assert |last| % 8 == 0;
      PlainStep(Layout(front), Flatten(front), last);
      SumOfMultiples(|Layout(front)|, |last|);
    }
  }
}
