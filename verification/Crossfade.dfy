/** The audible result of playing tracks one after another with overlapping
    ends, independent of any buffering. Samples are real numbers and the gain
    curves are arbitrary functions of the frame offset and the fade length. */
module Mixing {
  import opened Extremes

  /** Samples are interleaved over two channels: whether n samples are a whole
      number of frames. */
  predicate Aligned(n: nat) {
    n % 2 == 0
  }

  /** The largest whole number of frames in n samples. */
  function WholeFrames(n: nat): nat {
    n - n % 2
  }

  lemma AlignedSum(a: nat, b: nat)
    requires Aligned(a) && Aligned(b)
    ensures Aligned(a + b) && (b <= a ==> Aligned(a - b))
  {}

  lemma FrameGap(a: nat, b: nat)
    requires Aligned(a) && Aligned(b)
    ensures b < a ==> b + 2 <= a
  {}

  lemma FrameOffset(a: nat, b: nat, c: nat)
    requires Aligned(a) && Aligned(b) && c < 2
    ensures WholeFrames(a + (b + c)) == a + b
  {
    assert a + (b + c) == 2 * (a / 2 + b / 2) + c;
  }

  const MAX_SAMPLE: real := 32767.0 / 32768.0

  /** What the incoming track contributes to one sample of a fade. */
  datatype Incoming = Silence | Sound(x: real)

  /** How one sample is made in a fade: the outgoing sample, its offset in the
      fade, the length of the fade, and what comes in. */
  type Mixer = (real, nat, nat, Incoming) -> real

  /** Gain curves, as functions of the frame offset and the fade length. */
  datatype Gains = Gains(fadeOut: (nat, nat) -> real, fadeIn: (nat, nat) -> real)

  /** A track that has handed over: what its source still had to give when it
      became current, and how many of its last samples were faded. */
  datatype Leg = Leg(track: seq<real>, fade: nat)

  function Clamp(x: real): real {
    if x > MAX_SAMPLE then MAX_SAMPLE else if x < -1.0 then -1.0 else x
  }

  function Scale(x: real, gain: real): real {
    x * gain
  }

  /** One gain per frame for each side, the sum clamped so that the conversion
      to 16 bits cannot overflow. */
  function Sample(gains: Gains, out: real, j: nat, total: nat, incoming: Incoming): real {
    var frame := WholeFrames(j);
    var fading := Scale(out, gains.fadeOut(frame, total));
    Clamp(if incoming.Silence? then fading else fading + Scale(incoming.x, gains.fadeIn(frame, total)))
  }

  function GainMixer(gains: Gains): Mixer {
    (out: real, j: nat, total: nat, incoming: Incoming) => Sample(gains, out, j, total, incoming)
  }

  function At(track: seq<real>, j: nat): Incoming {
    if j < |track| then Sound(track[j]) else Silence
  }

  function MixAt(g: Mixer, tail: seq<real>, next: seq<real>, j: nat): real
    requires j < |tail|
  {
    g(tail[j], j, |tail|, At(next, j))
  }

  /** A fade of `tail` over `next`, which is silent past its end. */
  function Mixed(g: Mixer, tail: seq<real>, next: seq<real>): (mixed: seq<real>)
    ensures |mixed| == |tail|
  {
    MixedTo(g, tail, next, |tail|)
  }

  /** Its first n samples. */
  function MixedTo(g: Mixer, tail: seq<real>, next: seq<real>, n: nat): (mixed: seq<real>)
    requires n <= |tail|
    ensures |mixed| == n
  {
    if n == 0 then [] else MixedTo(g, tail, next, n - 1) + [MixAt(g, tail, next, n - 1)]
  }

  /** `before` with its last `fade` samples mixed into the start of `next`. */
  function Overlap(g: Mixer, before: seq<real>, next: seq<real>, fade: nat): seq<real>
    requires fade <= |before|
  {
    before[..|before| - fade] + Mixed(g, before[|before| - fade..], next) + next[Min(fade, |next|)..]
  }

  /** How much of `current` the fade of the last leg has already covered. */
  function Covered(legs: seq<Leg>, current: seq<real>): nat {
    if legs == [] then 0 else Min(legs[|legs|-1].fade, |current|)
  }

  /** Every fade fits in what the fade before it left of the track. */
  predicate Playable(legs: seq<Leg>) {
    legs == [] ||
    var before, last := legs[..|legs|-1], legs[|legs|-1];
    Playable(before) && Covered(before, last.track) + last.fade <= |last.track|
  }

  /** All samples of a run: each leg overlapped by the one after it, `current`
      last. Nothing here mentions how the samples were chunked. */
  function Output(g: Mixer, legs: seq<Leg>, current: seq<real>): (out: seq<real>)
    requires Playable(legs)
    ensures |out| >= |current| - Covered(legs, current)
    decreases |legs|
  {
    if legs == [] then current
    else
      var last := legs[|legs|-1];
      Overlap(g, Output(g, legs[..|legs|-1], last.track), current, last.fade)
  }

  /** Two tracks: A without its tail, the clamped mix of A's tail and B's start,
      then the rest of B. */
  lemma OutputOfTwo(g: Mixer, a: seq<real>, b: seq<real>, fade: nat)
    requires fade <= |a|
    ensures Playable([Leg(a, fade)])
    ensures Output(g, [Leg(a, fade)], b) == Overlap(g, a, b, fade)
  {
    hide Overlap;
    var leg := Leg(a, fade);
    assert [] + [leg] == [leg];
    OutputStep(g, [], leg, b);
  }

  lemma {:induction false} MixedAt(g: Mixer, tail: seq<real>, next: seq<real>, n: nat, j: nat)
    requires j < n <= |tail|
    ensures MixedTo(g, tail, next, n)[j] == g(tail[j], j, |tail|, At(next, j))
  {
    if j < n - 1 {
      MixedAt(g, tail, next, n - 1, j);
    }
  }

  lemma SampleIs(gains: Gains, out: real, next: seq<real>, j: nat, total: nat)
    ensures var x := GainMixer(gains)(out, j, total, At(next, j));
      var m := out * gains.fadeOut(j - j % 2, total) +
        if j < |next| then next[j] * gains.fadeIn(j - j % 2, total) else 0.0;
      x == if m < -1.0 then -1.0 else if m > 32767.0 / 32768.0 then 32767.0 / 32768.0 else m
  {
    hide Clamp, Scale;
    var gainOut, gainIn := gains.fadeOut(j - j % 2, total), gains.fadeIn(j - j % 2, total);
    ScaleIs(out, gainOut);
    if j < |next| {
      ScaleIs(next[j], gainIn);
      ClampIs(Scale(out, gainOut) + Scale(next[j], gainIn));
    } else {
      ClampIs(Scale(out, gainOut));
    }
  }

  lemma ScaleIs(x: real, gain: real)
    ensures Scale(x, gain) == x * gain
  {}

  lemma ClampIs(m: real)
    ensures Clamp(m) == if m < -1.0 then -1.0 else if m > 32767.0 / 32768.0 then 32767.0 / 32768.0 else m
  {}

  /** Sample j of a fade: what goes out times the fade-out gain of its frame, and what
      comes in, if anything does, times the fade-in gain, brought within -1 and the
      largest sample. */
  lemma OverlapSample(gains: Gains, before: seq<real>, next: seq<real>, fade: nat, j: nat)
    requires j < fade <= |before|
    ensures var at := |before| - fade + j; var x := Overlap(GainMixer(gains), before, next, fade)[at];
      var m := before[at] * gains.fadeOut(j - j % 2, fade) +
        if j < |next| then next[j] * gains.fadeIn(j - j % 2, fade) else 0.0;
      x == if m < -1.0 then -1.0 else if m > 32767.0 / 32768.0 then 32767.0 / 32768.0 else m
  {
    hide GainMixer, MixedTo;
    MixedAt(GainMixer(gains), before[|before| - fade..], next, fade, j);
    SampleIs(gains, before[|before| - fade + j], next, j, fade);
  }

  /** Before the fade the first stretch is heard as it is, and after it what is left of
      the second. */
  lemma OverlapPlain(g: Mixer, before: seq<real>, next: seq<real>, fade: nat)
    requires fade <= |before|
    ensures var out, start := Overlap(g, before, next, fade), |before| - fade;
      && |out| == |before| + (if fade < |next| then |next| - fade else 0)
      && (forall i :: 0 <= i < start ==> out[i] == before[i])
      && (forall i :: |before| <= i < |out| ==> out[i] == next[i - start])
  {}

  lemma OutputStep(g: Mixer, legs: seq<Leg>, last: Leg, current: seq<real>)
    requires Playable(legs) && Covered(legs, last.track) + last.fade <= |last.track|
    ensures Playable(legs + [last])
    ensures Output(g, legs + [last], current) == Overlap(g, Output(g, legs, last.track), current, last.fade)
  {
    hide MixedTo;
    var all := legs + [last];
    assert all != [] && all[..|all|-1] == legs && all[|all|-1] == last;
  }
}

/** A ring stored in a flat buffer. */
module Rings {
  import opened Extremes
  import opened Mixing

  /** Index i, which overruns the buffer at most once, taken modulo its size. */
  function Wrap(i: nat, size: nat): nat
    requires i < 2 * size
  {
    if i < size then i else i - size
  }

  /** The ring beginning at `start` holds the samples s, oldest first. */
  predicate Holds(buf: seq<real>, start: nat, s: seq<real>) {
    && start < |buf| && |s| <= |buf|
    && forall i :: 0 <= i < |s| ==> s[i] == buf[Wrap(start + i, |buf|)]
  }

  method Advance(i: nat, n: nat, size: nat) returns (r: nat)
    requires i < size && n <= size
    ensures r == Wrap(i + n, size)
  {
    WrapIsMod(i + n, size);
    r := (i + n) % size;
  }

  lemma WrapIsMod(i: nat, size: nat)
    requires i < 2 * size
    ensures i % size == Wrap(i, size)
  {
    if size <= i {
      var q := i / size;
      assert i == q * size + i % size;
      assert q == 1 by {
        if q < 1 { assert false; }
        if q > 1 { assert false; }
      }
    }
  }

  lemma AlignedWrap(i: nat, n: nat, size: nat)
    requires i < size && n <= size && Aligned(i) && Aligned(n) && Aligned(size)
    ensures Aligned(Wrap(i + n, size))
  {}

  /** Moving the start past the n oldest samples. */
  lemma HoldsRest(buf: seq<real>, start: nat, s: seq<real>, n: nat)
    requires Holds(buf, start, s) && n <= |s|
    ensures Holds(buf, Wrap(start + n, |buf|), s[n..])
  {
    forall i | 0 <= i < |s| - n
      ensures s[n..][i] == buf[Wrap(Wrap(start + n, |buf|) + i, |buf|)]
    {
      assert s[n..][i] == s[n + i];
    }
  }

  lemma HoldsPart(buf: seq<real>, start: nat, s: seq<real>, part: seq<real>)
    requires Holds(buf, start, s) && |part| <= |s|
    requires forall i :: 0 <= i < |part| ==> part[i] == buf[Wrap(start + i, |buf|)]
    ensures s == part + s[|part|..]
  {
    assert part == s[..|part|];
  }

  /** Writing n samples just past the end appends them, whatever happens to the
      rest of the free stretch up to `stop`. */
  lemma HoldsMore(buf: seq<real>, buf': seq<real>, start: nat, s: seq<real>, stop: nat, n: nat)
    requires Holds(buf, start, s) && |buf'| == |buf| && |s| < |buf|
    requires var at := Wrap(start + |s|, |buf|);
             && at + n <= stop <= |buf| && stop <= at + (|buf| - |s|)
             && forall i :: 0 <= i < |buf| && !(at <= i < stop) ==> buf'[i] == buf[i]
    ensures var at := Wrap(start + |s|, |buf|);
            Holds(buf', start, s + buf'[at..at + n])
  {
    var at := Wrap(start + |s|, |buf|);
    var grown := s + buf'[at..at + n];
    forall i | 0 <= i < |grown|
      ensures grown[i] == buf'[Wrap(start + i, |buf|)]
    {
      if |s| <= i {
        assert Wrap(start + i, |buf|) == at + (i - |s|);
      }
    }
  }

  /** Copies the first `want` samples of a ring to the front of dst, one
      contiguous stretch at a time, and says where the ring starts then. */
  method CopyOut(dst: array<real>, buf: array<real>, start: nat, len: nat, want: nat) returns (at: nat)
    requires dst != buf && start < buf.Length && want <= len <= buf.Length && want <= dst.Length
    modifies dst
    ensures at == Wrap(start + want, buf.Length)
    ensures forall i :: 0 <= i < want ==> dst[i] == buf[Wrap(start + i, buf.Length)]
  {
    var n := 0;
    at := start;
    while n < want
      invariant n <= want && at == Wrap(start + n, buf.Length)
      invariant forall i :: 0 <= i < n ==> dst[i] == buf[Wrap(start + i, buf.Length)]
    {
      var end := Min(at + (want - n), Min(buf.Length, at + (len - n)));
      var nn := end - at;
      forall i | 0 <= i < nn {
        dst[n + i] := buf[at + i];
      }
      at := Advance(at, nn, buf.Length);
      n := n + nn;
    }
  }
}

/** A decoder: a fixed sequence of samples handed out in whole frames, in
    chunks of its own choosing. */
module Decoders {
  import opened Extremes
  import opened Mixing

  datatype ReadError = NoError | EndOfStream | Failure

  function Count(b: bool): nat {
    if b then 1 else 0
  }

  class AudioSource {
    const samples: seq<real>
    const noCrossfade: bool  // its tail has to be heard in full
    const reliable: bool  // it never fails
    var pos: nat
    ghost var failures: nat  // how often it has failed

    constructor (samples: seq<real>, noCrossfade: bool, reliable: bool)
      requires Aligned(|samples|)
      ensures Valid() && this.samples == samples && this.noCrossfade == noCrossfade && this.reliable == reliable
      ensures pos == 0 && failures == 0
    {
      this.samples, this.noCrossfade, this.reliable := samples, noCrossfade, reliable;
      pos, failures := 0, 0;
    }

    ghost predicate Valid()
      reads this
    {
      pos <= |samples| && Aligned(pos) && Aligned(|samples|) && (reliable ==> failures == 0)
    }

    /** What it has yet to give. */
    ghost function Rest(): seq<real>
      requires Valid()
      reads this
    {
      samples[pos..]
    }

    /** How much the next read of so much room gives, which is the decoder's choice:
        it makes progress unless it fails or the track is over; the end may be
        reported along with the last samples or on a later read. */
    method Choose(room: nat) returns (n: nat, err: ReadError)
      requires Valid()
      ensures n <= room && Aligned(n) && pos + n <= |samples| && (reliable ==> !err.Failure?)
      ensures err.EndOfStream? ==> pos + n == |samples|
      ensures err.NoError? && 2 <= room ==> n > 0
    {
      var limit := WholeFrames(Min(room, |samples| - pos));
      err := *;
      if reliable && err.Failure? {
        err := NoError;
      }
      if limit == 0 && err.NoError? && 2 <= room {
        err := EndOfStream;
      }
      n :| 0 <= n <= limit && Aligned(n)
        && (limit > 0 && err.NoError? ==> n > 0)
        && (err.EndOfStream? ==> n == limit);
      if err.EndOfStream? && pos + n < |samples| {
        err := if n > 0 || reliable then NoError else Failure;
      }
    }

    /** Reads into p[lo..hi], of which anything past what is returned may be
        used as scratch space. */
    method Read(p: array<real>, lo: nat, hi: nat) returns (n: nat, err: ReadError)
      requires Valid() && lo <= hi <= p.Length
      modifies `pos, `failures, p
      ensures Valid() && failures == old(failures) + Count(err.Failure?)
      ensures lo + n <= hi && Aligned(n) && pos == old(pos) + n
      ensures p[lo..lo + n] == samples[old(pos)..pos]
      ensures forall i :: 0 <= i < p.Length && !(lo <= i < hi) ==> p[i] == old(p[i])
      ensures err.EndOfStream? ==> pos == |samples|
      ensures err.NoError? && lo + 2 <= hi ==> n > 0
    {
      n, err := Choose(hi - lo);
      AlignedSum(pos, n);
      hide Aligned;
      failures := failures + Count(err.Failure?);
      forall i | lo <= i < lo + n {
        p[i] := samples[pos + i - lo];
      }
      pos := pos + n;
    }
  }
}

/** The lookahead ring buffer of the switching source. */
module LookaheadRing {
  import opened Extremes
  import opened Mixing
  import opened Rings
  import opened Decoders

  const SCRATCH_SIZE: nat := 8192

  class Lookahead {
    const buf: array<real>
    var bufStart: nat
    var bufLen: nat
    ghost var contents: seq<real>  // the buffered samples, oldest first

    ghost predicate Valid()
      reads this, buf
    {
      && 0 < buf.Length && Aligned(buf.Length)
      && bufStart < buf.Length && Aligned(bufStart)
      && bufLen == |contents| <= buf.Length && Aligned(bufLen)
      && Holds(buf[..], bufStart, contents)
    }

    constructor (size: nat)
      requires 0 < size && Aligned(size)
      ensures Valid() && fresh(buf) && buf.Length == size && contents == []
    {
      buf := new real[size];
      bufStart, bufLen, contents := 0, 0, [];
    }

    method Clear()
      requires Valid()
      modifies this
      ensures Valid() && contents == [] && bufLen == 0
    {
      bufStart, bufLen, contents := 0, 0, [];
    }

    /** Forgets the n oldest samples. */
    method Drop(n: nat)
      requires Valid() && n <= bufLen && Aligned(n)
      modifies this
      ensures Valid() && contents == old(contents)[n..] && bufLen == old(bufLen) - n
    {
      AlignedWrap(bufStart, n, buf.Length);
      AlignedSum(bufLen, n);
      HoldsRest(buf[..], bufStart, contents, n);
      bufStart := Advance(bufStart, n, buf.Length);
      bufLen, contents := bufLen - n, contents[n..];
    }

    /** The i-th oldest sample. */
    method At(i: nat) returns (x: real)
      requires Valid() && i < bufLen
      ensures x == contents[i]
    {
      var at := Advance(bufStart, i, buf.Length);
      x := buf[at];
    }

    /** Copies up to `limit` samples to p and consumes them, in whole frames so
        that the ring never ends up on a torn frame. */
    method Pop(p: array<real>, limit: nat) returns (n: nat, ghost part: seq<real>)
      requires Valid() && p != buf
      modifies this, p
      ensures Valid() && n == WholeFrames(Min(p.Length, Min(limit, old(bufLen))))
      ensures part == p[..n] && old(contents) == part + contents && bufLen == old(bufLen) - n
    {
      n := WholeFrames(Min(p.Length, Min(limit, bufLen)));
      AlignedWrap(bufStart, n, buf.Length);
      AlignedSum(bufLen, n);
      HoldsRest(buf[..], bufStart, contents, n);
      ghost var start := bufStart;
      bufStart := CopyOut(p, buf, bufStart, bufLen, n);
      part := p[..n];
      HoldsPart(buf[..], start, contents, part);
      hide Holds, Wrap;
      bufLen, contents := bufLen - n, contents[n..];
    }

    /** The contiguous free stretch after the buffered samples. */
    method FreeChunk() returns (start: nat, end: nat)
      requires Valid() && bufLen < buf.Length
      ensures start == Wrap(bufStart + bufLen, buf.Length)
      ensures start + 2 <= end <= buf.Length && end - start <= buf.Length - bufLen
    {
      start := Advance(bufStart, bufLen, buf.Length);
      end := Min(start + (buf.Length - bufLen), buf.Length);
      AlignedWrap(bufStart, bufLen, buf.Length);
      AlignedSum(buf.Length, bufLen);
      AlignedSum(buf.Length, start);
    }

    /** One decoder read into the free stretch, at most SCRATCH_SIZE long. */
    method ReadFrom(src: AudioSource) returns (n: nat, err: ReadError)
      requires Valid() && src.Valid() && bufLen < buf.Length
      modifies this, buf, src
      ensures Valid() && src.Valid() && src.pos == old(src.pos) + n
      ensures src.failures == old(src.failures) + Count(err.Failure?)
      ensures contents == old(contents) + src.samples[old(src.pos)..src.pos]
      ensures bufLen == old(bufLen) + n <= buf.Length && n <= SCRATCH_SIZE
      ensures err.EndOfStream? ==> src.pos == |src.samples|
      ensures err.NoError? ==> n > 0
    {
      var start, end := FreeChunk();
      end := Min(end, start + SCRATCH_SIZE);
      ghost var was := buf[..];
      n, err := src.Read(buf, start, end);
      HoldsMore(was, buf[..], bufStart, contents, end, n);
      AlignedSum(bufLen, n);
      contents := contents + src.samples[old(src.pos)..src.pos];
      bufLen := bufLen + n;
    }
  }
}

/** How a run of the switching source accounts for its samples: what was served
    and what is still held make up the output of the whole run. */
module Accounting {
  import opened Extremes
  import opened Mixing

  /** The samples served, the tracks that have handed over, and all that the
      current track had to give when it became current. */
  datatype Run = Run(served: seq<real>, legs: seq<Leg>, track: seq<real>)

  predicate IsSuffix(rest: seq<real>, track: seq<real>) {
    |rest| <= |track| && rest == track[|track| - |rest|..]
  }

  /** No fade in progress: the ring and then the decoder hold what is owed. */
  ghost predicate Playing(g: Mixer, run: Run, ring: seq<real>, rest: seq<real>) {
    && Playable(run.legs)
    && IsSuffix(rest, run.track)
    && Covered(run.legs, run.track) + |ring| + |rest| <= |run.track|
    && run.served + (ring + rest) == Output(g, run.legs, run.track)
  }

  /** Everything up to and including the track fading out, had it not faded. */
  function Before(g: Mixer, legs: seq<Leg>): seq<real>
    requires legs != [] && Playable(legs)
  {
    Output(g, legs[..|legs|-1], legs[|legs|-1].track)
  }

  /** A fade of `total` samples of which `pos` were served: the ring holds the
      rest of the tail, the decoder what follows its share of the fade. */
  ghost predicate Fading(g: Mixer, run: Run, ring: seq<real>, rest: seq<real>, total: nat, pos: nat) {
    && run.legs != [] && Playable(run.legs) && run.legs[|run.legs|-1].fade == total
    && pos <= total && ring == Tail(g, run.legs)[pos..]
    && rest == run.track[Min(pos, |run.track|)..]
    && run.served == Head(g, run.legs) + MixedTo(g, Tail(g, run.legs), run.track, pos)
  }

  /** What the last leg played plainly, after everything before it. */
  function Head(g: Mixer, legs: seq<Leg>): seq<real>
    requires legs != [] && Playable(legs)
  {
    var before := Before(g, legs);
    before[..|before| - legs[|legs|-1].fade]
  }

  /** What the last leg faded out. */
  function Tail(g: Mixer, legs: seq<Leg>): (tail: seq<real>)
    requires legs != [] && Playable(legs)
    ensures |tail| == legs[|legs|-1].fade
  {
    var before := Before(g, legs);
    before[|before| - legs[|legs|-1].fade..]
  }

  /** A run begins with nothing served and all of a track still to come. */
  lemma Begin(g: Mixer, track: seq<real>)
    ensures Playing(g, Run([], [], track), [], track)
  {
    assert [] + ([] + track) == track;
  }

  /** Serving from the front of the ring. */
  lemma ServePlain(g: Mixer, run: Run, ring: seq<real>, rest: seq<real>, part: seq<real>, ring': seq<real>)
    requires Playing(g, run, ring, rest) && ring == part + ring'
    ensures Playing(g, run.(served := run.served + part), ring', rest)
  {
    Regroup(part, ring', rest);
    Regroup(run.served, part, ring' + rest);
  }

  /** Moving samples from the decoder to the ring. */
  lemma Refill(g: Mixer, run: Run, ring: seq<real>, rest: seq<real>, part: seq<real>, rest': seq<real>)
    requires Playing(g, run, ring, rest) && rest == part + rest'
    ensures Playing(g, run, ring + part, rest')
  {
    Regroup(ring, part, rest');
  }

  /** The track is over and its last samples are in the ring: they become the
      tail of a fade into the next one. */
  lemma HandOver(g: Mixer, run: Run, ring: seq<real>, next: seq<real>)
    requires Playing(g, run, ring, [])
    ensures Fading(g, Run(run.served, run.legs + [Leg(run.track, |ring|)], next), ring, next, |ring|, 0)
  {
    hide Output, MixedTo, Covered, Overlap;
    var legs := run.legs + [Leg(run.track, |ring|)];
    assert legs[..|legs|-1] == run.legs && legs[|legs|-1] == Leg(run.track, |ring|);
    assert ring + [] == ring;
    LastPart(run.served, ring);
    assert Before(g, legs) == run.served + ring;
    assert Tail(g, legs)[0..] == ring && next[0..] == next;
    assert run.served + MixedTo(g, Tail(g, legs), next, 0) == run.served;
  }

  lemma LastPart(a: seq<real>, b: seq<real>)
    ensures (a + b)[..|a + b| - |b|] == a && (a + b)[|a + b| - |b|..] == b
  {}

  lemma {:induction false} MixPart(g: Mixer, tail: seq<real>, track: seq<real>, pos: nat, part: seq<real>)
    requires pos + |part| <= |tail|
    requires forall i :: 0 <= i < |part| ==> part[i] == MixAt(g, tail, track, pos + i)
    ensures MixedTo(g, tail, track, pos) + part == MixedTo(g, tail, track, pos + |part|)
  {
    if part != [] {
      var n := |part| - 1;
      MixPart(g, tail, track, pos, part[..n]);
      assert part == part[..n] + [part[n]];
    }
  }

  /** Serving the next samples of the fade. */
  lemma ServeFade(
    g: Mixer, run: Run, ring: seq<real>, rest: seq<real>, total: nat, pos: nat, part: seq<real>, rest': seq<real>)
    requires Fading(g, run, ring, rest, total, pos)
    requires pos + |part| <= total
    requires rest' == rest[Min(|part|, |rest|)..]
    requires forall i :: 0 <= i < |part| ==>
      part[i] == g(ring[i], pos + i, total, At(rest, i))
    ensures Fading(g, run.(served := run.served + part), ring[|part|..], rest', total, pos + |part|)
  {
    hide Output, Overlap, Covered, MixedTo;
    var tail := Tail(g, run.legs);
    forall i | 0 <= i < |part|
      ensures part[i] == MixAt(g, tail, run.track, pos + i)
    {
      assert ring[i] == tail[pos + i];
      if i < |rest| {
        assert rest[i] == run.track[pos + i];
      }
    }
    MixPart(g, tail, run.track, pos, part);
    Regroup(Head(g, run.legs), MixedTo(g, tail, run.track, pos), part);
    FadeMoved(run.track, pos, |part|);
    assert ring[|part|..] == tail[pos + |part|..];
  }

  /** The same, as a read sees it: `got` came from the decoder, which gives
      nothing only when it is at its end. */
  lemma ServeFadeRead(
    g: Mixer, run: Run, ring: seq<real>, rest: seq<real>, total: nat, pos: nat, part: seq<real>, got: seq<real>)
    requires Fading(g, run, ring, rest, total, pos)
    requires pos + |part| <= total
    requires |got| <= |rest| && got == rest[..|got|] && (|part| == |got| || rest == [])
    requires forall i :: 0 <= i < |part| ==> part[i] == g(ring[i], pos + i, total, At(got, i))
    ensures Fading(g, run.(served := run.served + part), ring[|part|..], rest[|got|..], total, pos + |part|)
  {
    forall i | 0 <= i < |part|
      ensures part[i] == g(ring[i], pos + i, total, At(rest, i))
    {
      assert At(got, i) == At(rest, i);
    }
    ServeFade(g, run, ring, rest, total, pos, part, rest[|got|..]);
  }

  /** A track without n samples from a position on. */
  function CutOut(track: seq<real>, pos: nat, n: nat): seq<real> {
    track[..Min(pos, |track|)] + track[Min(pos + n, |track|)..]
  }

  lemma {:induction false} MixedSame(g: Mixer, tail: seq<real>, a: seq<real>, b: seq<real>, n: nat)
    requires n <= |tail| && forall j :: 0 <= j < n ==> At(a, j) == At(b, j)
    ensures MixedTo(g, tail, a, n) == MixedTo(g, tail, b, n)
  {
    if n > 0 {
      MixedSame(g, tail, a, b, n - 1);
    }
  }

  /** Samples of the incoming track thrown away during a fade: it goes on as if the
      track had never had them. */
  lemma CutFade(g: Mixer, run: Run, ring: seq<real>, rest: seq<real>, total: nat, pos: nat, n: nat)
    requires Fading(g, run, ring, rest, total, pos) && n <= |rest|
    ensures Fading(g, run.(track := CutOut(run.track, pos, n)), ring, rest[n..], total, pos)
  {
    hide Output;
    var track := CutOut(run.track, pos, n);
    MixedSame(g, Tail(g, run.legs), run.track, track, pos);
    if rest == [] {
      assert track == run.track;
    } else {
      assert rest[n..] == track[Min(pos, |track|)..];
    }
  }

  /** Cutting the first samples of what is left of a track. */
  lemma CutStart(samples: seq<real>, from: nat, to: nat)
    requires from <= to <= |samples|
    ensures CutOut(samples[from..], 0, to - from) == samples[to..]
  {}

  lemma Regroup(a: seq<real>, b: seq<real>, c: seq<real>)
    ensures a + b + c == a + (b + c)
  {}

  lemma FadeMoved(track: seq<real>, pos: nat, n: nat)
    ensures var rest := track[Min(pos, |track|)..];
            rest[Min(n, |rest|)..] == track[Min(pos + n, |track|)..]
  {}

  /** The tail is used up: the track is now played from where its share of the
      fade ended. */
  lemma EndFade(g: Mixer, run: Run, rest: seq<real>, total: nat)
    requires Fading(g, run, [], rest, total, total)
    ensures Playing(g, run, [], rest)
  {
    assert [] + rest == rest;
    assert Output(g, run.legs, run.track) == Overlap(g, Before(g, run.legs), run.track, total);
  }

  /** Switching without a fade. */
  lemma Switch(g: Mixer, run: Run, next: seq<real>)
    requires Playing(g, run, [], [])
    ensures Playing(g, Run(run.served, run.legs + [Leg(run.track, 0)], next), [], next)
  {
    HandOver(g, run, [], next);
    EndFade(g, Run(run.served, run.legs + [Leg(run.track, 0)], next), next, 0);
  }

  lemma {:induction false} MixedPrefix(g: Mixer, tail: seq<real>, track: seq<real>, m: nat, n: nat)
    requires m <= n <= |tail|
    ensures MixedTo(g, tail, track, m) <= MixedTo(g, tail, track, n)
    decreases n
  {
    if m < n {
      MixedPrefix(g, tail, track, m, n - 1);
    }
  }

  /** In either state what was served is the beginning of the run's output. */
  lemma ServedIsPrefix(g: Mixer, run: Run, ring: seq<real>, rest: seq<real>, total: nat, pos: nat)
    requires Playing(g, run, ring, rest) || Fading(g, run, ring, rest, total, pos)
    ensures Playable(run.legs) && run.served <= Output(g, run.legs, run.track)
  {
    if !Playing(g, run, ring, rest) {
      MixedPrefix(g, Tail(g, run.legs), run.track, pos, total);
    }
  }

  /** An output is never longer than the tracks it is made of. */
  lemma OutputLength(g: Mixer, a: seq<real>, b: seq<real>, fade: nat)
    requires fade <= |a|
    ensures Playable([Leg(a, fade)]) && |Output(g, [Leg(a, fade)], b)| <= |a| + |b|
  {
    OutputOfTwo(g, a, b, fade);
  }
}
