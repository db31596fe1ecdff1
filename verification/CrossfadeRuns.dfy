/** Whole runs of the switching source, for every sequence of read sizes. */
module CrossfadeRuns {
  import opened Mixing
  import opened Rings
  import opened Decoders
  import opened Accounting
  import opened SwitchingSource

  /** All that is heard of a followed by b when a's last `fade` samples overlap b. */
  ghost function Crossfaded(gains: Gains, a: seq<real>, b: seq<real>, fade: nat): seq<real>
    requires fade <= |a|
  {
    Overlap(GainMixer(gains), a, b, fade)
  }

  /** Every sample of it: a up to the fade, in the fade the sum of both, each times its
      gain for the frame, brought within -1 and the largest sample, and then the rest
      of b. */
  lemma CrossfadedSample(gains: Gains, a: seq<real>, b: seq<real>, fade: nat, i: nat)
    requires fade <= |a| && i < |Crossfaded(gains, a, b, fade)|
    ensures |Crossfaded(gains, a, b, fade)| == |a| + (if fade < |b| then |b| - fade else 0)
    ensures var x, j := Crossfaded(gains, a, b, fade)[i], i - (|a| - fade);
      if j < 0 then x == a[i]
      else if j >= fade then x == b[j]
      else
        var m := a[i] * gains.fadeOut(j - j % 2, fade) +
          if j < |b| then b[j] * gains.fadeIn(j - j % 2, fade) else 0.0;
        x == if m < -1.0 then -1.0 else if m > 32767.0 / 32768.0 then 32767.0 / 32768.0 else m
  {
    hide Overlap, GainMixer;
    OverlapPlain(GainMixer(gains), a, b, fade);
    var j := i - (|a| - fade);
    if 0 <= j < fade {
      OverlapSample(gains, a, b, fade, j);
    }
  }

  /** A track with stretches cut out of it, one after the other. */
  function CutAll(track: seq<real>, cuts: seq<(nat, nat)>): (rest: seq<real>)
    ensures |rest| <= |track|
  {
    if cuts == [] then track
    else
      var last := cuts[|cuts|-1];
      CutOut(CutAll(track, cuts[..|cuts|-1]), last.0, last.1)
  }

  /** A run of a with b waiting: either a is still playing alone, or it has handed
      over to b. */
  ghost predicate PairRun(s: SwitchingAudioSource, a: AudioSource, b: AudioSource)
    reads s, s.ring, s.ring.buf, s.slot, s.otherSlot, a, b
  {
    && s.Valid() && a.Valid() && b.Valid()
    && (s.slot == null || s.slot == a || s.slot == b) && (s.otherSlot == null || s.otherSlot == a || s.otherSlot == b)
    && if s.run.legs == [] then
         && s.Primary() == a && s.Secondary() == b && s.run.track == a.samples
         && b.pos == 0 && !s.fading
       else
         && s.Primary() == b && s.Secondary() == null
         && |s.run.legs| == 1 && s.run.legs[0].track == a.samples
         && s.run.legs[0].fade <= |a.samples| && s.run.legs[0].fade <= s.crossfadeSamples
  }

  /** The length of the fade, once there has been one. */
  ghost function FadeOf(s: SwitchingAudioSource): nat
    reads s
  {
    if s.run.legs == [] then 0 else s.run.legs[0].fade
  }

  /** What is heard of b, as far as is known. */
  ghost function HeardOf(s: SwitchingAudioSource, b: AudioSource): seq<real>
    reads s
  {
    if s.run.legs == [] then b.samples else s.run.track
  }

  lemma PairServed(s: SwitchingAudioSource, a: AudioSource, b: AudioSource)
    requires PairRun(s, a, b)
    ensures |s.run.served| <= |a.samples| + |HeardOf(s, b)|
    ensures if s.run.legs == [] then s.run.served <= a.samples
            else s.run.served <= Crossfaded(s.gains, a.samples, HeardOf(s, b), FadeOf(s))
  {
    ServedIsPrefix(s.Mix(), s.run, s.ring.contents, s.Rest(), s.fadeTotal, s.fadePos);
    if s.run.legs != [] {
      assert s.run.legs == [Leg(a.samples, FadeOf(s))];
      OutputOfTwo(s.Mix(), a.samples, s.run.track, FadeOf(s));
      OutputLength(s.Mix(), a.samples, s.run.track, FadeOf(s));
    }
  }

  lemma PairFinished(s: SwitchingAudioSource, a: AudioSource, b: AudioSource)
    requires PairRun(s, a, b) && s.run.legs != [] && !s.fading && s.ring.bufLen == 0 && s.Rest() == []
    ensures s.run.served == Crossfaded(s.gains, a.samples, HeardOf(s, b), FadeOf(s))
  {
    assert s.run.legs == [Leg(a.samples, FadeOf(s))];
    OutputOfTwo(s.Mix(), a.samples, s.run.track, FadeOf(s));
    assert s.run.served + (s.ring.contents + s.Rest()) == s.run.served;
  }

  lemma RunFacts(s: SwitchingAudioSource)
    requires s.Valid()
    ensures s.fading ==> s.run.legs != []
    ensures |s.run.legs| == 1 ==> s.run.legs[0].fade <= |s.run.legs[0].track|
  {
    if |s.run.legs| == 1 {
      assert s.run.legs[..0] == [];
    }
  }

  /** One read of such a run, as the switching source tells it. */
  method PairStep(s: SwitchingAudioSource, a: AudioSource, b: AudioSource, size: nat)
    returns (part: seq<real>, err: ReadError)
    requires PairRun(s, a, b) && a != b && 2 <= size
    modifies s, s.ring, s.ring.buf, s.scratch, a, b
    ensures PairRun(s, a, b) && s.run.served == old(s.run.served) + part
    ensures |old(s.run.legs)| <= |s.run.legs| && b.pos >= old(b.pos)
    ensures if |s.run.legs| == |old(s.run.legs)| then s.run.track == s.Heard(err.Failure? && s.fading)
            else s.run.track == (if err.Failure? then b.Rest() else b.samples) && (err.Failure? ==> s.fading)
    ensures s.fading && |s.run.legs| == |old(s.run.legs)| ==> old(s.run.legs) != []
    ensures a.failures + b.failures ==
      old(a.failures + b.failures) + Count(err.Failure?) + Count(s.pendingErr) - Count(old(s.pendingErr))
    ensures err.NoError? ==> |part| + |s.run.legs| > |old(s.run.legs)|
    ensures err.EndOfStream? ==> s.run.legs != [] && !s.fading && s.ring.bufLen == 0 && s.Rest() == []
  {
    hide Playing, Fading, Output, CutOut, Holds, Aligned;
    RunFacts(s);
    var p := new real[size];
    var n;
    n, err := s.Read(p);
    part := p[..n];
    RunFacts(s);
    assert b.samples[0..] == b.samples;
  }

  /** One read of such a run. Every failure of a decoder is reported once, and one
      reported during a fade cuts what came with it out of what is heard of b. */
  method PairRead(s: SwitchingAudioSource, a: AudioSource, b: AudioSource, size: nat)
    returns (part: seq<real>, err: ReadError, ghost cut: (nat, nat))
    requires PairRun(s, a, b) && a != b && 2 <= size
    modifies s, s.ring, s.ring.buf, s.scratch, a, b
    ensures PairRun(s, a, b) && s.run.served == old(s.run.served) + part && |s.run.legs| >= |old(s.run.legs)|
    ensures HeardOf(s, b) == if err.Failure? then CutOut(old(HeardOf(s, b)), cut.0, cut.1) else old(HeardOf(s, b))
    ensures err.Failure? ==> cut == if s.fading then (CutAt(s), b.pos - old(b.pos)) else (0, 0)
    ensures a.failures + b.failures ==
      old(a.failures + b.failures) + Count(err.Failure?) + Count(s.pendingErr) - Count(old(s.pendingErr))
    ensures err.NoError? ==> |part| + |s.run.legs| > |old(s.run.legs)|
    ensures err.EndOfStream? ==> s.run.legs != [] && !s.fading && s.ring.bufLen == 0 && s.Rest() == []
  {
    hide Playing, Fading, Output, CutOut, Holds, Aligned, SwitchingAudioSource.Valid;
    part, err := PairStep(s, a, b, size);
    NothingCut(old(HeardOf(s, b)));
    cut := (0, 0);
    if err.Failure? && s.fading {
      CutFirst(b.samples, b.pos);
      cut := (CutAt(s), b.pos - old(b.pos));
    }
  }

  /** How far into the incoming track a fade had got before a read, be it the first. */
  twostate function CutAt(s: SwitchingAudioSource): nat
    reads s
  {
    if |s.run.legs| == |old(s.run.legs)| then old(s.fadePos) else 0
  }

  lemma NothingCut(track: seq<real>)
    ensures CutOut(track, 0, 0) == track
  {}

  lemma CutFirst(track: seq<real>, n: nat)
    requires n <= |track|
    ensures CutOut(track, 0, n) == track[n..]
  {}

  /** Plays a track with the next one already waiting. Whatever the read sizes,
      and however the decoders chunk what they give, the samples served are a
      prefix of the crossfaded pair, and all of it once the end is reported; the
      end is reached unless the reads stop too early. Each failure of a decoder is
      reported once and cuts at most one stretch out of what is heard of the second
      track; decoders that do not fail lose nothing. */
  method PlayPair(s: SwitchingAudioSource, a: AudioSource, b: AudioSource, sizes: seq<nat>)
    returns (out: seq<real>, finished: bool, failures: nat, ghost cuts: seq<(nat, nat)>)
    requires PairRun(s, a, b) && s.run == Run([], [], a.samples) && a != b
    requires forall i :: 0 <= i < |sizes| ==> 2 <= sizes[i]
    modifies s, s.ring, s.ring.buf, s.scratch, a, b
    ensures PairRun(s, a, b) && s.run.served == out && HeardOf(s, b) == CutAll(b.samples, cuts)
    ensures if s.run.legs == [] then out <= a.samples
            else out <= Crossfaded(s.gains, a.samples, CutAll(b.samples, cuts), FadeOf(s))
    ensures finished ==>
      s.run.legs != [] && out == Crossfaded(s.gains, a.samples, CutAll(b.samples, cuts), FadeOf(s))
    ensures |sizes| > |a.samples| + |b.samples| + 1 + failures ==> finished
    ensures |cuts| == failures && a.failures + b.failures ==
      old(a.failures + b.failures) + failures + Count(s.pendingErr) - Count(old(s.pendingErr))
    ensures a.reliable && b.reliable && !old(s.pendingErr) ==> cuts == []
  {
    hide Playing, Fading, Output, CutOut;
    out, finished, failures, cuts := [], false, 0, [];
    for i := 0 to |sizes|
      invariant PairRun(s, a, b) && out == s.run.served && HeardOf(s, b) == CutAll(b.samples, cuts)
      invariant |cuts| == failures && |out| + |s.run.legs| + failures >= i
      invariant a.failures + b.failures ==
        old(a.failures + b.failures) + failures + Count(s.pendingErr) - Count(old(s.pendingErr))
    {
      var part, err;
      ghost var cut;
      part, err, cut := PairRead(s, a, b, sizes[i]);
      out := out + part;
      if err.Failure? {
        assert (cuts + [cut])[..|cuts|] == cuts;
        cuts := cuts + [cut];
        failures := failures + 1;
      }
      if err.EndOfStream? {
        PairFinished(s, a, b);
        PairServed(s, a, b);
        finished := true;
        return;
      }
    }
    PairServed(s, a, b);
  }

  /** A track is decoding normally: nothing fading, no end and no failure seen. */
  ghost predicate Decoding(s: SwitchingAudioSource, src: AudioSource)
    reads s, s.ring, s.ring.buf, s.slot, s.otherSlot
  {
    && s.Valid() && s.Primary() == src && !src.noCrossfade && s.crossfadeSamples > 0
    && !s.fading && !s.primaryEOF && !s.pendingErr
  }

  /** One read of a decoding track; it is over when the end of the track has been
      found or its decoder has failed, and otherwise goes on decoding. */
  method DecodingRead(s: SwitchingAudioSource, src: AudioSource, size: nat) returns (over: bool)
    requires Decoding(s, src) && 2 <= size
    modifies s, s.ring, s.ring.buf, s.scratch, s.slot, s.otherSlot
    ensures over ==> src.pos == |src.samples| || src.failures > old(src.failures)
    ensures over && src.reliable ==> src.pos == |src.samples|
    ensures !over ==> Decoding(s, src) && s.Secondary() == old(s.Secondary()) && src.failures == old(src.failures)
    ensures !over && s.crossfadeSamples <= old(s.ring.bufLen) ==> s.crossfadeSamples <= s.ring.bufLen
    ensures !over ==> s.crossfadeSamples <= s.ring.bufLen || old(s.ring.bufLen) + FILL_BUDGET - size <= s.ring.bufLen
  {
    hide Playing, Fading, Output, CutOut, Holds, Aligned;
    var p, next := new real[size], s.Secondary();
    var n, err := s.Read(p);
    over := s.Primary() != src || s.Secondary() != next || s.fading || s.primaryEOF || s.pendingErr || !err.NoError?;
  }

  /** With buffers shorter than the fill budget, reading builds up the reserve:
      it is complete after enough reads to make up its length, each gaining at
      least the budget less what it serves, unless the track ends or its decoder
      fails before. */
  method BuildReserve(s: SwitchingAudioSource, src: AudioSource, size: nat, count: nat) returns (over: bool)
    requires Decoding(s, src) && 2 <= size < FILL_BUDGET
    modifies s, s.ring, s.ring.buf, s.scratch, s.slot, s.otherSlot
    ensures over ==> src.pos == |src.samples| || src.failures > old(src.failures)
    ensures over && src.reliable ==> src.pos == |src.samples|
    ensures !over ==> Decoding(s, src)
    ensures !over && s.crossfadeSamples <= count * (FILL_BUDGET - size) ==> s.crossfadeSamples <= s.ring.bufLen
  {
    hide Playing, Fading, Output, CutOut, Holds, Aligned;
    over := false;
    var i, built := 0, 0;
    while i < count && !over
      invariant i <= count && built == i * (FILL_BUDGET - size)
      invariant over ==> src.pos == |src.samples| || src.failures > old(src.failures)
      invariant over && src.reliable ==> src.pos == |src.samples|
      invariant !over ==>
        Decoding(s, src) && s.Secondary() == old(s.Secondary()) && src.failures == old(src.failures)
      invariant !over ==> s.crossfadeSamples <= s.ring.bufLen || built <= s.ring.bufLen
    {
      over := DecodingRead(s, src, size);
      i, built := i + 1, built + (FILL_BUDGET - size);
    }
  }

  /** A track with the next one waiting and the reserve complete. */
  ghost predicate Reserved(s: SwitchingAudioSource, src: AudioSource, next: AudioSource)
    reads s, s.ring, s.ring.buf, s.slot, s.otherSlot
  {
    && s.Valid() && s.Primary() == src && s.Secondary() == next && src != next && !src.noCrossfade
    && !s.fading && 0 < s.crossfadeSamples <= s.ring.bufLen
  }

  /** One read of such a track: it hands over with a fade of exactly the configured
      length, its decoder has failed, or the reserve is still complete. */
  method ReservedRead(s: SwitchingAudioSource, src: AudioSource, next: AudioSource, size: nat) returns (over: bool)
    requires Reserved(s, src, next) && 2 <= size
    modifies s, s.ring, s.ring.buf, s.scratch, src, next
    ensures s.Valid() && |s.run.legs| >= |old(s.run.legs)|
    ensures |s.run.legs| > |old(s.run.legs)| ==> over && s.run.legs[|s.run.legs|-1].fade == s.crossfadeSamples
    ensures over ==> |s.run.legs| > |old(s.run.legs)| || src.failures > old(src.failures) || old(s.pendingErr)
    ensures !over ==>
      && Reserved(s, src, next) && !s.pendingErr && src.failures == old(src.failures)
      && s.run.legs == old(s.run.legs) && s.run.track == old(s.run.track) && |s.run.served| > |old(s.run.served)|
  {
    hide Playing, Fading, Output, CutOut, Holds, Aligned;
    var p := new real[size];
    var n, err := s.Read(p);
    over := !err.NoError? || s.pendingErr || s.Primary() != src;
  }

  /** Once the reserve is complete it stays complete, so with the next track
      waiting the fade is exactly as long as configured; it is reached after enough
      reads unless the decoder fails. */
  method PlayIntoFade(s: SwitchingAudioSource, src: AudioSource, next: AudioSource, sizes: seq<nat>)
    returns (over: bool)
    requires Reserved(s, src, next) && forall i :: 0 <= i < |sizes| ==> 2 <= sizes[i]
    modifies s, s.ring, s.ring.buf, s.scratch, src, next
    ensures |s.run.legs| > |old(s.run.legs)| ==> over && s.run.legs[|s.run.legs|-1].fade == s.crossfadeSamples
    ensures over ==> |s.run.legs| > |old(s.run.legs)| || src.failures > old(src.failures) || old(s.pendingErr)
    ensures !over ==> Reserved(s, src, next)
    ensures |sizes| > old(s.ring.bufLen + |src.Rest()|) ==> over
  {
    hide Playing, Fading, Output, CutOut, Holds, Aligned;
    over := false;
    LeftToServe(s);
    for i := 0 to |sizes|
      invariant Reserved(s, src, next) && src.failures == old(src.failures) && (s.pendingErr ==> old(s.pendingErr))
      invariant s.run.legs == old(s.run.legs) && s.run.track == old(s.run.track)
      invariant |s.run.served| >= |old(s.run.served)| + i
    {
      over := ReservedRead(s, src, next, sizes[i]);
      if over {
        return;
      }
    }
    LeftToServe(s);
  }

  /** Outside a fade what was served and what is left make up the output. */
  lemma LeftToServe(s: SwitchingAudioSource)
    requires s.Valid() && !s.fading
    ensures Playable(s.run.legs)
    ensures |Output(s.Mix(), s.run.legs, s.run.track)| == |s.run.served| + s.ring.bufLen + |s.Rest()|
  {
    hide Output;
  }
}
