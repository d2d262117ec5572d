/**
 The pose file of one frame: a tag, the time, the joint states and the camera,
 as little-endian words.  Words are opaque; `Floats` says which are finite.
 */
module SkeletonFile {
  import opened Wrappers
  import opened Bytes
  import opened Cursor
  import opened Skeleton

  const TAG: seq<byte> := [83, 51, 68, 83, 75, 76, 48, 49]  // S3DSKL01
  const FRAME_BYTES: nat := 16 + (JOINTS * 8 + 3) * 4

  /** A frame as its machine words. */
  datatype Stored = Stored(time: Word64, globals: seq<Word32>, camera: seq<Word32>)

  /** The number a word stands for; none if it is not finite. */
  datatype Floats = Floats(double: Word64 -> Option<real>, single: Word32 -> Option<real>)

  predicate Finite(words: seq<Word32>, floats: Floats) {
    forall i :: 0 <= i < |words| ==> floats.single(words[i]).Some?
  }

  function Values(words: seq<Word32>, floats: Floats): seq<real>
    requires Finite(words, floats)
  {
    seq(|words|, i requires 0 <= i < |words| => floats.single(words[i]).value)
  }

  predicate Valid(f: Stored, floats: Floats) {
    && floats.double(f.time).Some?
    && Finite(f.globals, floats) && Finite(f.camera, floats)
    && ValidFrame(Frame(floats.double(f.time).value, Values(f.globals, floats), Values(f.camera, floats)))
  }

  function EncodeSkeleton(f: Stored, floats: Floats): Result<seq<byte>> {
    if !Valid(f, floats) then Failure("invalid skeleton")
    else Success(TAG + f.time + Joined(f.globals) + Joined(f.camera))
  }

  function ReadSkeleton(b: seq<byte>, floats: Floats): Result<Stored> {
    if |b| != FRAME_BYTES || b[..8] != TAG then Failure("invalid skeleton frame")
    else
      var at := 16 + JOINTS * 8 * 4;
      var f := Stored(b[8..16], Split(b[16..at]), Split(b[at..]));
      if Valid(f, floats) then Success(f) else Failure("invalid skeleton")
  }

  /** A frame that can be written is read back unchanged. */
  lemma SkeletonRead(f: Stored, floats: Floats)
    requires EncodeSkeleton(f, floats).Success?
    ensures |EncodeSkeleton(f, floats).value| == FRAME_BYTES
    ensures ReadSkeleton(EncodeSkeleton(f, floats).value, floats) == Success(f)
  {
    hide ValidFrame, Joined, Split;
    ValidSizes(f, floats);
    var b, at := EncodeSkeleton(f, floats).value, 16 + JOINTS * 8 * 4;
    assert b[..8] == TAG && b[8..16] == f.time;
    assert b[16..at] == Joined(f.globals) && b[at..] == Joined(f.camera);
    SplitJoined(f.globals);
    SplitJoined(f.camera);
  }

  lemma ValidSizes(f: Stored, floats: Floats)
    requires Valid(f, floats)
    ensures |f.globals| == JOINTS * 8 && |f.camera| == 3
  {
  }

  /** A file that is accepted is exactly what writing its frame produces. */
  lemma SkeletonWritten(b: seq<byte>, floats: Floats)
    requires ReadSkeleton(b, floats).Success?
    ensures EncodeSkeleton(ReadSkeleton(b, floats).value, floats) == Success(b)
  {
    hide ValidFrame, Joined, Split;
    var at := 16 + JOINTS * 8 * 4;
    JoinedSplit(b[16..at]);
    JoinedSplit(b[at..]);
    assert b == b[..8] + b[8..16] + b[16..at] + b[at..];
  }

  /** The file takes 4092 bytes: the tag, the eight bytes of the time, the 1016 words of
      the joints from byte 16 on, and the three words of the camera from byte 4080 on. */
  lemma SkeletonLaid(f: Stored, floats: Floats)
    requires EncodeSkeleton(f, floats).Success?
    ensures var b := EncodeSkeleton(f, floats).value;
            && |b| == 4092 && |f.globals| == 1016 && |f.camera| == 3
            && b[..8] == [83, 51, 68, 83, 75, 76, 48, 49] && b[8..16] == f.time
            && (forall k: nat | k < 1016 :: b[16 + 4 * k..20 + 4 * k] == f.globals[k])
            && forall k: nat | k < 3 :: b[4080 + 4 * k..4084 + 4 * k] == f.camera[k]
  {
    hide ValidFrame, Joined;
    ValidSizes(f, floats);
    var b, joints, camera := EncodeSkeleton(f, floats).value, Joined(f.globals), Joined(f.camera);
    assert b[16..4080] == joints && b[4080..] == camera;
    forall k: nat | k < 1016 ensures b[16 + 4 * k..20 + 4 * k] == f.globals[k] {
      JoinedAt(f.globals, k);
      Subslice(b, 16, 4064, 4 * k, 4);
    }
    forall k: nat | k < 3 ensures b[4080 + 4 * k..4084 + 4 * k] == f.camera[k] {
      JoinedAt(f.camera, k);
      Subslice(b, 4080, 12, 4 * k, 4);
    }
  }
}
