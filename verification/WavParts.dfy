/** Splitting one channel's export into WAV files (src/math.rs). */
module WavParts {
  import opened Base
  import opened ChunkMath

  const WAV_HEADER_BYTES: nat := 44

  datatype WavPart = WavPart(start: u64, count: u64)

  datatype Error = NoFrameBytes | NoRoomForData | TooSmallForOneFrame

  function FramesPerPart(bytesPerFrame: nat, split: u64): (r: Result<u64, Error>)
    ensures r.Ok? <==> bytesPerFrame > 0 && WAV_HEADER_BYTES + bytesPerFrame <= split
    ensures r.Ok? ==> r.value > 0 && WAV_HEADER_BYTES + Times(r.value, bytesPerFrame) <= split
    ensures r.Ok? ==> WAV_HEADER_BYTES + Times(r.value + 1, bytesPerFrame) > split
  {
    if bytesPerFrame == 0 then Err(NoFrameBytes)
    else if split <= WAV_HEADER_BYTES then Err(NoRoomForData)
    else
      var frames := (split - WAV_HEADER_BYTES) / bytesPerFrame;
      DivParts(split - WAV_HEADER_BYTES, bytesPerFrame);
      TimesStep(frames, bytesPerFrame);
      TimesZero(frames, bytesPerFrame);
      OneFits(frames, bytesPerFrame);
      if frames == 0 then Err(TooSmallForOneFrame) else Ok(frames)
  }

  lemma OneFits(frames: nat, d: nat)
    ensures frames > 0 ==> Times(frames, d) >= d
  {
    Multiple(1, d);
    if frames > 0 { TimesMonotone(1, frames, d); }
  }

  function PartCount(total: u64, bytesPerFrame: nat, split: u64): Result<nat, Error> {
    match FramesPerPart(bytesPerFrame, split)
    case Err(e) => Err(e)
    case Ok(n) => Ok(DivCeil(total, n))
  }

  /** Non-empty parts that follow one another from 0 to `end`. */
  ghost predicate Chained(parts: seq<WavPart>, end: nat) {
    if parts == [] then end == 0
    else
      var last := parts[|parts| - 1];
      last.count > 0 && last.start + last.count == end && Chained(parts[..|parts| - 1], last.start)
  }

  /** Every frame of the recording lies in exactly one part. */
  lemma {:induction false} ChainedCovers(parts: seq<WavPart>, end: nat, frame: nat)
    requires Chained(parts, end) && frame < end
    ensures exists i :: 0 <= i < |parts| && parts[i].start <= frame < parts[i].start + parts[i].count
    ensures forall i, j :: 0 <= i < j < |parts| ==>
      !(parts[i].start <= frame < parts[i].start + parts[i].count
        && parts[j].start <= frame < parts[j].start + parts[j].count)
  {
    var init, last := parts[..|parts| - 1], parts[|parts| - 1];
    forall i | 0 <= i < |init| ensures parts[i].start + parts[i].count <= last.start {
      ChainedBelow(init, last.start, i);
    }
    if frame < last.start {
      ChainedCovers(init, last.start, frame);
      var i :| 0 <= i < |init| && init[i].start <= frame < init[i].start + init[i].count;
      assert parts[i] == init[i];
      forall i, j | 0 <= i < j < |parts|
        ensures !(parts[i].start <= frame < parts[i].start + parts[i].count
                  && parts[j].start <= frame < parts[j].start + parts[j].count)
      {
        if j < |init| { assert parts[i] == init[i] && parts[j] == init[j]; }
      }
    } else {
      assert parts[|init|] == last;
    }
  }

  lemma {:induction false} ChainedBelow(parts: seq<WavPart>, end: nat, i: nat)
    requires Chained(parts, end) && i < |parts|
    ensures parts[i].start + parts[i].count <= end
  {
    if i < |parts| - 1 { ChainedBelow(parts[..|parts| - 1], parts[|parts| - 1].start, i); }
  }

  /** The first parts hold `n` frames each. */
  ghost predicate Filled(parts: seq<WavPart>, n: nat, first: int) {
    forall i :: 0 <= i < first && i < |parts| ==> parts[i].count == n
  }

  lemma FilledGrows(parts: seq<WavPart>, n: nat, p: WavPart)
    requires Filled(parts, n, |parts|)
    ensures Filled(parts + [p], n, |parts|) && (p.count == n ==> Filled(parts + [p], n, |parts| + 1))
  {
  }

  /** The parts are non-empty, contiguous, cover the recording exactly, each fits
      the limit with its header and all but the last fill it, and they are as many
      as `PartCount` says. */
  method PartsForChannel(total: u64, bytesPerFrame: nat, split: u64) returns (r: Result<seq<WavPart>, Error>)
    ensures r.Ok? <==> PartCount(total, bytesPerFrame, split).Ok?
    ensures r.Err? ==> PartCount(total, bytesPerFrame, split) == Err(r.error)
    ensures r.Ok? ==> Chained(r.value, total) && PartCount(total, bytesPerFrame, split) == Ok(|r.value|)
    ensures r.Ok? ==> exists n :: FramesPerPart(bytesPerFrame, split) == Ok(n) && Filled(r.value, n, |r.value| - 1)
    ensures r.Ok? ==> forall p :: p in r.value ==> WAV_HEADER_BYTES + Times(p.count, bytesPerFrame) <= split
  {
    var framesPerPart;
    match FramesPerPart(bytesPerFrame, split) {
      case Err(e) => return Err(e);
      case Ok(n) => framesPerPart := n;
    }
    var parts: seq<WavPart>, start: nat := [], 0;
    TimesZero(0, framesPerPart);
    while start < total
      invariant start <= total && Chained(parts, start)
      invariant start < total ==> start == Times(|parts|, framesPerPart)
      invariant start == total > 0 ==>
        Times(|parts| - 1, framesPerPart) < total <= Times(|parts|, framesPerPart) && |parts| > 0
      invariant Filled(parts, framesPerPart, if start < total then |parts| else |parts| - 1)
      invariant forall p :: p in parts ==> WAV_HEADER_BYTES + Times(p.count, bytesPerFrame) <= split
    {
      var count := Min(total - start, framesPerPart);
      TimesStep(|parts|, framesPerPart);
      TimesMonotone(count, framesPerPart, bytesPerFrame);
      FilledGrows(parts, framesPerPart, WavPart(start, count));
      hide Filled;
      parts := parts + [WavPart(start, count)];
      start := start + count;
    }
    CountIs(total, framesPerPart, |parts|);
    return Ok(parts);
  }

  lemma CountIs(total: nat, n: nat, k: nat)
    requires n > 0 && (total == 0 ==> k == 0)
    requires total > 0 ==> k > 0 && Times(k - 1, n) < total <= Times(k, n)
    ensures DivCeil(total, n) == k
  {
    TimesZero(0, n);
    if k > 0 { TimesStep(k - 1, n); }
    DivUnique(total + n - 1, k, total + n - 1 - Times(k, n), n);
  }
}
