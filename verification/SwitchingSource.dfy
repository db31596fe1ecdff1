/** The switching source: a lookahead ring keeps the end of a track in reserve,
    so that the end is found before it is audible and can be faded into the
    track prefetched after it. */
module SwitchingSource {
  import opened Extremes
  import opened Mixing
  import opened Rings
  import opened Decoders
  import opened LookaheadRing
  import opened Accounting

  const LOOKAHEAD_HEADROOM: nat := 8192
  const FILL_BUDGET: nat := 2 * SCRATCH_SIZE

  class SwitchingAudioSource {
    const gains: Gains
    const crossfadeSamples: nat
    const ring: Lookahead
    const scratch: array<real>  // fade-in reads

    var slot: AudioSource?       // the two slots of the source map,
    var otherSlot: AudioSource?  // under true and false
    var which: bool
    var eofReported: bool
    var doneSignal: bool  // the done channel holds a signal

    var primaryEOF: bool
    var pendingErr: bool
    var fading: bool
    var fadeTotal: nat
    var fadePos: nat

    // The run since the current source was last replaced outright.
    ghost var run: Run

    function Primary(): AudioSource?
      reads this
    {
      if which then slot else otherSlot
    }

    function Secondary(): AudioSource?
      reads this
    {
      if which then otherSlot else slot
    }

    method Put(b: bool, src: AudioSource?)
      modifies `slot, `otherSlot
      ensures slot == (if b then src else old(slot)) && otherSlot == (if b then old(otherSlot) else src)
    {
      if b {
        slot := src;
      } else {
        otherSlot := src;
      }
    }

    ghost function Mix(): Mixer {
      GainMixer(gains)
    }

    ghost function Footprint(): set<object?>
      reads this
    {
      {this, ring, ring.buf, scratch, slot, otherSlot}
    }

    ghost predicate Structure()
      reads this, ring, ring.buf, slot, otherSlot
    {
      && Aligned(crossfadeSamples)
      && ring.Valid() && ring.buf.Length == crossfadeSamples + LOOKAHEAD_HEADROOM
      && scratch.Length == SCRATCH_SIZE && scratch != ring.buf
      && (slot != null ==> slot.Valid()) && (otherSlot != null ==> otherSlot.Valid())
      && (crossfadeSamples == 0 || Primary() == null ==> !primaryEOF && !pendingErr && !fading && ring.bufLen == 0)
      && (pendingErr ==> !primaryEOF)
      && (fading ==> primaryEOF && Aligned(fadePos) && fadeTotal == fadePos + ring.bufLen <= crossfadeSamples)
      && (primaryEOF && !fading ==> Primary().Rest() == [])
    }

    ghost function Rest(): seq<real>
      requires Structure()
      reads this, ring, ring.buf, slot, otherSlot
    {
      if Primary() == null then [] else Primary().Rest()
    }

    ghost predicate Conserved()
      requires Structure()
      reads this, ring, ring.buf, slot, otherSlot
    {
      if fading then Fading(Mix(), run, ring.contents, Rest(), fadeTotal, fadePos)
      else Playing(Mix(), run, ring.contents, Rest())
    }

    ghost predicate Valid()
      reads this, ring, ring.buf, slot, otherSlot
    {
      && Structure()
      && (fading ==> fadePos < fadeTotal)
      && Conserved()
    }

    constructor (crossfade: int, gains: Gains)
      ensures Valid() && fresh(ring) && fresh(ring.buf) && fresh(scratch)
      ensures slot == otherSlot == null && !fading && !eofReported && !doneSignal && ring.bufLen == 0
      ensures run == Run([], [], []) && this.gains == gains && TailKept()
      ensures crossfadeSamples == if crossfade < 0 then 0 else WholeFrames(crossfade)
    {
      var n: nat := if crossfade < 0 then 0 else WholeFrames(crossfade);
      crossfadeSamples, this.gains := n, gains;
      slot, otherSlot, which := null, null, false;
      eofReported, doneSignal, primaryEOF, pendingErr, fading := false, false, false, false, false;
      fadeTotal, fadePos := 0, 0;
      run := Run([], [], []);
      ring := new Lookahead(n + LOOKAHEAD_HEADROOM);
      scratch := new real[SCRATCH_SIZE];
      new;
      Begin(Mix(), []);
    }

    method ReportDone()
      modifies `eofReported, `doneSignal
      ensures eofReported && doneSignal == (old(doneSignal) || !old(eofReported))
    {
      if !eofReported {
        eofReported, doneSignal := true, true;
      }
    }

    method FinishFade()
      requires ring.Valid()
      modifies `fading, `fadeTotal, `fadePos, `primaryEOF, ring
      ensures !fading && !primaryEOF && fadeTotal == fadePos == 0
      ensures ring.Valid() && ring.bufLen == 0 && ring.contents == []
    {
      fading, primaryEOF := false, false;
      fadeTotal, fadePos := 0, 0;
      ring.Clear();
    }

    /** Installs the source that is to play now. The source already playing is
        left alone, fade and all; any other cuts the run short. A source waiting
        as the next one does not stay there as well. */
    method SetPrimary(src: AudioSource?)
      requires Valid() && (src != null ==> src.Valid())
      modifies this, ring
      ensures Valid() && Primary() == src && !eofReported && doneSignal == old(doneSignal)
      ensures Secondary() == if old(Secondary()) == src then null else old(Secondary())
      ensures old(TailKept()) ==> TailKept()
      ensures src == old(Primary()) ==>
                && run == old(run) && ring.contents == old(ring.contents)
                && fading == old(fading) && fadeTotal == old(fadeTotal) && fadePos == old(fadePos)
                && primaryEOF == old(primaryEOF) && pendingErr == old(pendingErr)
      ensures src != old(Primary()) ==>
                && run == Run([], [], if src == null then [] else src.Rest())
                && ring.contents == [] && !fading && !primaryEOF && !pendingErr
    {
      hide Playing, Fading, Holds, Aligned;
      if Primary() != src {
        Cut(src);
      }
      if Secondary() == src {
        Put(!which, null);
      }
      eofReported := false;
    }

    /** Drops the lookahead and any fade along with the source they belong to. */
    method Cut(src: AudioSource?)
      requires Structure() && (src != null ==> src.Valid())
      modifies ring, `slot, `otherSlot, `pendingErr, `fading, `fadeTotal, `fadePos, `primaryEOF, `run
      ensures Valid() && Primary() == src && Secondary() == old(Secondary())
      ensures run == Run([], [], if src == null then [] else src.Rest())
      ensures ring.contents == [] && !fading && !primaryEOF && !pendingErr
    {
      hide Playing, Fading, Holds, Aligned;
      pendingErr := false;
      FinishFade();
      Put(which, src);
      run := Run([], [], if src == null then [] else src.Rest());
      Begin(Mix(), run.track);
    }

    method SetSecondary(src: AudioSource?)
      requires Valid() && (src != null ==> src.Valid())
      modifies `slot, `otherSlot
      ensures Valid() && Secondary() == src && Primary() == old(Primary()) && (old(TailKept()) ==> TailKept())
    {
      hide Playing, Fading, Holds, Aligned;
      Put(!which, src);
    }

    /** Serves from the front of the ring outside a fade. */
    method Serve(p: array<real>, limit: nat) returns (n: nat)
      requires Valid() && !fading && p !in Footprint()
      modifies ring, p, `run
      ensures Valid() && n == WholeFrames(Min(p.Length, Min(limit, old(ring.bufLen))))
      ensures ring.bufLen == old(ring.bufLen) - n
      ensures run == old(run).(served := old(run).served + p[..n])
    {
      hide Playing, Fading, Holds, WholeFrames, Aligned;
      ghost var was, part := ring.contents, [];
      n, part := ring.Pop(p, limit);
      ServePlain(Mix(), run, was, Rest(), part, ring.contents);
      run := run.(served := run.served + part);
    }

    /** The same, with a frame or more to serve. */
    method ServeSome(p: array<real>, limit: nat) returns (n: nat)
      requires Valid() && !fading && p !in Footprint() && 2 <= p.Length && 2 <= limit <= ring.bufLen
      modifies ring, p, `run
      ensures Valid() && 0 < n <= limit && n <= p.Length
      ensures ring.bufLen == old(ring.bufLen) - n
      ensures run == old(run).(served := old(run).served + p[..n])
    {
      hide Playing, Fading, Holds, Aligned;
      n := Serve(p, limit);
    }

    /** One bounded read into the lookahead. */
    method FillOnce() returns (n: nat)
      requires Valid() && crossfadeSamples > 0 && Primary() != null
      requires !fading && !primaryEOF && !pendingErr && ring.bufLen < ring.buf.Length
      modifies ring, ring.buf, Primary(), `primaryEOF, `pendingErr
      ensures Valid() && ring.bufLen == old(ring.bufLen) + n && Primary().pos == old(Primary().pos) + n
      ensures Primary().failures == old(Primary().failures) + Count(pendingErr)
      ensures !primaryEOF && !pendingErr ==> n > 0
    {
      hide Playing, Fading, Holds;
      var src := Primary();
      ghost var was, rest, from := ring.contents, src.Rest(), src.pos;
      var err;
      n, err := ring.ReadFrom(src);
      assert rest == src.samples[from..src.pos] + src.Rest();
      Refill(Mix(), run, was, rest, src.samples[from..src.pos], src.Rest());
      primaryEOF, pendingErr := err.EndOfStream?, err.Failure?;
    }

    /** Refills the lookahead with bounded reads until it is full, the budget is
        spent, the track ends or the decoder fails. */
    method Fill()
      requires Valid() && !fading && crossfadeSamples > 0 && Primary() != null
      modifies ring, ring.buf, Primary(), `primaryEOF, `pendingErr
      ensures Valid() && ring.bufLen - old(ring.bufLen) == Primary().pos - old(Primary().pos) >= 0
      ensures Primary().failures == old(Primary().failures) + Count(pendingErr) - Count(old(pendingErr))
      ensures old(primaryEOF) ==> primaryEOF && ring.bufLen == old(ring.bufLen)
      ensures old(pendingErr) ==> pendingErr && ring.bufLen == old(ring.bufLen)
      ensures !primaryEOF && !pendingErr ==>
                && (old(ring.bufLen) + FILL_BUDGET <= ring.bufLen || ring.bufLen == ring.buf.Length)
                && 0 < ring.bufLen
    {
      hide Playing, Fading, Holds;
      var budget: int := FILL_BUDGET;
      while !primaryEOF && !pendingErr && ring.bufLen < ring.buf.Length && (ring.bufLen == 0 || budget > 0)
        invariant Valid()
        invariant Primary().failures == old(Primary().failures) + Count(pendingErr) - Count(old(pendingErr))
        invariant ring.bufLen - old(ring.bufLen) == Primary().pos - old(Primary().pos) == FILL_BUDGET - budget >= 0
        invariant old(primaryEOF) ==> primaryEOF && budget == FILL_BUDGET
        invariant old(pendingErr) ==> pendingErr && budget == FILL_BUDGET
        decreases !primaryEOF && !pendingErr, ring.buf.Length - ring.bufLen
      {
        var n := FillOnce();
        budget := budget - n;
      }
    }

    method MixOne(k: nat, nIn: nat, gainOut: real, gainIn: real) returns (sample: real)
      requires ring.Valid() && k < ring.bufLen && nIn <= scratch.Length
      requires gainOut == gains.fadeOut(WholeFrames(fadePos + k), fadeTotal)
      requires gainIn == gains.fadeIn(WholeFrames(fadePos + k), fadeTotal)
      ensures sample == Sample(gains, ring.contents[k], fadePos + k, fadeTotal, At(scratch[..nIn], k))
    {
      sample := ring.At(k);
      sample := Scale(sample, gainOut);
      if k < nIn {
        sample := sample + Scale(scratch[k], gainIn);
      }
      sample := Clamp(sample);
    }

    /** Mixes one frame of the chunk. */
    method MixFrame(p: array<real>, i: nat, nIn: nat)
      requires ring.Valid() && p != ring.buf && p != scratch && nIn <= scratch.Length
      requires Aligned(i) && Aligned(fadePos) && i + 2 <= ring.bufLen && i + 2 <= p.Length
      modifies p
      ensures forall k :: 0 <= k < p.Length && !(i <= k < i + 2) ==> p[k] == old(p[k])
      ensures forall k :: i <= k < i + 2 ==>
                p[k] == Mix()(ring.contents[k], fadePos + k, fadeTotal, At(scratch[..nIn], k))
    {
      hide Sample, Holds;
      var gainOut := gains.fadeOut(fadePos + i, fadeTotal);
      var gainIn := gains.fadeIn(fadePos + i, fadeTotal);
      FrameOffset(fadePos, i, 0);
      var sample := MixOne(i, nIn, gainOut, gainIn);
      p[i] := sample;
      FrameOffset(fadePos, i, 1);
      sample := MixOne(i + 1, nIn, gainOut, gainIn);
      p[i + 1] := sample;
    }

    /** Mixes the front of the ring with the first nIn samples in the scratch
        buffer, in whole frames with one gain each. */
    method MixInto(p: array<real>, chunk: nat, nIn: nat) returns (ghost part: seq<real>)
      requires ring.Valid() && p != ring.buf && p != scratch
      requires Aligned(chunk) && Aligned(fadePos) && nIn <= scratch.Length
      requires chunk <= ring.bufLen && chunk <= p.Length
      modifies p
      ensures part == p[..chunk]
      ensures forall k :: 0 <= k < chunk ==>
                part[k] == Mix()(ring.contents[k], fadePos + k, fadeTotal, At(scratch[..nIn], k))
    {
      ghost var mix, tail, incoming := Mix(), ring.contents, scratch[..nIn];
      var i := 0;
      while i < chunk
        invariant i <= chunk && Aligned(i) && scratch[..nIn] == incoming
        invariant forall k :: 0 <= k < i ==> p[k] == mix(tail[k], fadePos + k, fadeTotal, At(incoming, k))
      {
        MixFrame(p, i, nIn);
        i := i + 2;
      }
      part := p[..chunk];
    }

    /** Reads the incoming track's share of the next chunk of a fade. */
    method ReadIncoming(want: nat) returns (nIn: nat, err: ReadError)
      requires Structure() && fading && 0 < want <= SCRATCH_SIZE && Aligned(want)
      modifies scratch, Primary()
      ensures Structure() && nIn <= want && Aligned(nIn) && Primary().pos == old(Primary().pos) + nIn
      ensures Primary().failures == old(Primary().failures) + Count(err.Failure?)
      ensures scratch[..nIn] == old(Rest())[..nIn] && Rest() == old(Rest())[nIn..]
      ensures nIn == 0 ==> err.Failure? || Rest() == []
    {
      hide Playing, Fading, Holds;
      nIn, err := Primary().Read(scratch, 0, want);
    }

    /** The whole tail has been mixed. */
    method EndOfFade()
      requires Structure() && fading && fadePos == fadeTotal && Conserved()
      modifies ring, `fading, `fadeTotal, `fadePos, `primaryEOF
      ensures Valid() && !fading && ring.bufLen == 0 && !primaryEOF
    {
      hide Playing, Fading, Holds;
      EndFade(Mix(), run, Rest(), fadeTotal);
      FinishFade();
    }

    method AdvanceFade(n: nat, ghost part: seq<real>)
      requires Structure() && fading && n <= ring.bufLen && Aligned(n)
      requires Fading(Mix(), run.(served := run.served + part), ring.contents[n..], Rest(), fadeTotal, fadePos + n)
      modifies ring, `fadePos, `run
      ensures Structure() && Conserved()
      ensures fadePos == old(fadePos) + n && run == old(run).(served := old(run).served + part)
    {
      hide Playing, Fading, Holds;
      AlignedSum(fadePos, n);
      ring.Drop(n);
      fadePos := fadePos + n;
      run := run.(served := run.served + part);
    }

    /** Serves n samples of the fade, of which nIn came in from the promoted
        track; when there were none it has nothing more to give. */
    method ServeMixed(p: array<real>, n: nat, nIn: nat, ghost rest: seq<real>)
      requires Structure() && fading && p !in Footprint()
      requires Fading(Mix(), run, ring.contents, rest, fadeTotal, fadePos)
      requires n <= p.Length && n <= ring.bufLen && Aligned(n) && nIn <= SCRATCH_SIZE && nIn <= |rest|
      requires scratch[..nIn] == rest[..nIn] && Rest() == rest[nIn..]
      requires n == nIn || (nIn == 0 && rest == [])
      modifies ring, p, `fadePos, `run
      ensures Structure() && Conserved()
      ensures fadePos == old(fadePos) + n && run == old(run).(served := old(run).served + p[..n])
    {
      hide Playing, Fading, Holds;
      ghost var part := MixInto(p, n, nIn);
      ServeFadeRead(Mix(), run, ring.contents, rest, fadeTotal, fadePos, part, scratch[..nIn]);
      AdvanceFade(n, part);
      assert p[..n] == part;
    }

    lemma NothingServed(part: seq<real>)
      requires part == []
      ensures run == run.(served := run.served + part)
    {
      assert run.served + part == run.served;
    }

    /** What there is to hear of the incoming track after a read of the fade: all of
        it, less the samples that came with a failure. */
    twostate function Heard(failed: bool): seq<real>
      reads this, slot, otherSlot
    {
      var src := old(Primary());
      if failed && src != null && Primary() == src && src.pos >= old(src.pos) then
        CutOut(old(run.track), old(fadePos), src.pos - old(src.pos))
      else old(run.track)
    }

    /** A decoder failure during a fade: nothing is served, and the samples that came
        with it are cut out of the incoming track. */
    method LoseIncoming(n: nat, ghost rest: seq<real>)
      requires Structure() && fading && fadePos < fadeTotal && n <= |rest| && Rest() == rest[n..]
      requires Fading(Mix(), run, ring.contents, rest, fadeTotal, fadePos)
      modifies `run
      ensures Valid() && run == old(run).(track := CutOut(old(run.track), fadePos, n))
    {
      hide Playing, Fading, Holds;
      CutFade(Mix(), run, ring.contents, rest, fadeTotal, fadePos, n);
      run := run.(track := CutOut(run.track, fadePos, n));
    }

    /** The next samples of a fade, at most `want`, without ending it. A decoder failure
        serves nothing and loses what came with it. */
    method FadeChunk(p: array<real>, want: nat) returns (n: nat, err: ReadError)
      requires Structure() && fading && fadePos < fadeTotal && Conserved() && p !in Footprint()
      requires Aligned(want) && 0 < want <= SCRATCH_SIZE && want <= p.Length && want <= ring.bufLen
      modifies ring, scratch, p, Primary(), `fadePos, `run
      ensures Structure() && Conserved() && Primary().pos >= old(Primary().pos) && !err.EndOfStream?
      ensures Primary().failures == old(Primary().failures) + Count(err.Failure?)
      ensures n <= p.Length && fadePos == old(fadePos) + n && (n == 0 <==> err.Failure?)
      ensures run == old(run).(served := old(run).served + p[..n], track := Heard(err.Failure?))
    {
      hide Playing, Fading, Holds, Aligned;
      ghost var rest := Rest();
      var nIn;
      nIn, err := ReadIncoming(want);
      if err.Failure? {
        n := 0;
        LoseIncoming(nIn, rest);
        NothingServed(p[..n]);
      } else {
        n, err := if nIn > 0 then nIn else want, NoError;
        ServeMixed(p, n, nIn, rest);
      }
    }

    /** One read from the fade: the rest of the outgoing tail mixed with the
        track already promoted. */
    method ReadFade(p: array<real>) returns (n: nat, err: ReadError)
      requires Structure() && fading && Conserved() && p !in Footprint() && 2 <= p.Length
      modifies ring, scratch, p, Primary(), `fading, `fadeTotal, `fadePos, `primaryEOF, `run
      ensures Valid() && n <= p.Length && Primary().pos >= old(Primary().pos)
      ensures Primary().failures == old(Primary().failures) + Count(err.Failure?)
      ensures run == old(run).(served := old(run).served + p[..n], track := Heard(err.Failure?))
      ensures err.Failure? ==> n == 0 && fading
      ensures !err.Failure? ==> err.NoError? && (n == 0 <==> old(fadePos) == old(fadeTotal))
      ensures fading ==> fadeTotal == old(fadeTotal) && fadePos == old(fadePos) + n
      ensures !fading ==> old(fadePos) + n == old(fadeTotal) && ring.bufLen == 0 && !primaryEOF
    {
      hide Playing, Fading, Holds, CutOut;
      var want := WholeFrames(Min(p.Length, Min(fadeTotal - fadePos, SCRATCH_SIZE)));
      WantedFrames(p.Length, fadeTotal - fadePos);
      n, err := 0, NoError;
      if want <= 0 {
        NothingServed(p[..n]);
        EndOfFade();
      } else {
        n, err := FadeChunk(p, want);
        if fadePos >= fadeTotal {
          EndOfFade();
        }
      }
    }

    /** A fade in progress always has a frame to give. */
    lemma WantedFrames(size: nat, left: nat)
      requires 2 <= size && ring.Valid() && left == ring.bufLen
      ensures var want := WholeFrames(Min(size, Min(left, SCRATCH_SIZE)));
        Aligned(want) && 0 <= want <= size && want <= left && want <= SCRATCH_SIZE && (want == 0 <==> left == 0)
    {
      hide Holds;
    }

    /** Playback went on to the track waiting in the other slot, the end of the
        one before it overlapping it by `fade` samples. */
    twostate predicate HandedOver(fade: nat, failed: bool)
      requires old(Structure()) && Structure()
      reads this, ring, ring.buf, slot, otherSlot
    {
      && old(Secondary()) != null && Primary() == old(Secondary()) && Secondary() == null
      && run.legs == old(run.legs) + [Leg(old(run.track), fade)]
      && (old(Primary()) != old(Secondary()) ==> run.track == if failed then Rest() else old(Secondary().Rest()))
    }

    twostate predicate SameTrack(failed: bool)
      reads this, slot, otherSlot
    {
      && Primary() == old(Primary()) && Secondary() == old(Secondary())
      && (Primary() != null ==> Primary().pos >= old(Primary().pos))
      && (Secondary() != null && Secondary() != Primary() ==> Secondary().pos == old(Secondary().pos))
      && run.legs == old(run.legs) && run.track == Heard(failed)
    }

    /** Every failure of a decoder is reported by a read or still pending, once. */
    twostate predicate Reported(src: AudioSource, next: AudioSource?, err: ReadError)
      reads this, src, next
    {
      if |run.legs| == |old(run.legs)| then
        && src.failures == old(src.failures) + Count(err.Failure?) + Count(pendingErr) - Count(old(pendingErr))
        && src.failures >= old(src.failures)
        && (next != null && next != src ==> next.failures == old(next.failures))
      else
        && (next != null ==> next.failures == old(next.failures) + Count(err.Failure?))
        && pendingErr == old(pendingErr) && (next != src ==> src.failures == old(src.failures))
    }

    /** The end of a track is reported when it hands over or is over, and signalled
        the first time. */
    twostate predicate Signalled(err: ReadError)
      reads this
    {
      && eofReported == (old(eofReported) || err.EndOfStream? || |run.legs| > |old(run.legs)|)
      && doneSignal == (old(doneSignal) || (eofReported && !old(eofReported)))
    }

    /** Makes the waiting track the current one and starts fading the buffered
        tail of the old one into it. */
    method Promote()
      requires Valid() && !fading && primaryEOF && Secondary() != null && ring.bufLen <= crossfadeSamples
      modifies `slot, `otherSlot, `which, `fading, `fadeTotal, `fadePos, `run
      ensures Structure() && fading && fadePos == 0 && fadeTotal == ring.bufLen
      ensures Conserved()
      ensures Primary() == old(Secondary()) && Secondary() == null
      ensures run == Run(old(run.served), old(run.legs) + [Leg(old(run.track), ring.bufLen)], old(Secondary().Rest()))
    {
      hide Playing, Fading, Holds;
      HandOver(Mix(), run, ring.contents, Secondary().Rest());
      run := Run(run.served, run.legs + [Leg(run.track, ring.bufLen)], Secondary().Rest());
      Put(which, null);
      which := !which;
      fading, fadeTotal, fadePos := true, ring.bufLen, 0;
    }

    /** The same, once the track that ended is reported done. */
    method BeginFade()
      requires Valid() && !fading && primaryEOF && Secondary() != null && ring.bufLen <= crossfadeSamples
      modifies `slot, `otherSlot, `which, `fading, `fadeTotal, `fadePos, `run, `eofReported, `doneSignal
      ensures eofReported && doneSignal == (old(doneSignal) || !old(eofReported))
      ensures Structure() && fading && fadePos == 0 && fadeTotal == ring.bufLen
      ensures Conserved()
      ensures Primary() == old(Secondary()) && Secondary() == null
      ensures run == Run(old(run.served), old(run.legs) + [Leg(old(run.track), ring.bufLen)], old(Secondary().Rest()))
    {
      hide Playing, Fading, Holds, Aligned;
      ReportDone();
      Promote();
    }

    /** The path without lookahead, for when crossfading is off or declined. */
    ghost predicate Direct()
      reads this, ring, slot, otherSlot
    {
      crossfadeSamples == 0 ||
      (!fading && ring.bufLen == 0 && !primaryEOF && Primary() != null && Primary().noCrossfade)
    }

    /** Nothing is buffered of a track that declines to be crossfaded, once it is alone. */
    ghost predicate TailKept()
      reads this, ring, slot, otherSlot
    {
      Primary() != null && Primary().noCrossfade && !fading ==> ring.bufLen == 0 && !primaryEOF
    }

    /** A read straight from the primary. */
    method ServeDirect(p: array<real>) returns (n: nat, err: ReadError)
      requires Valid() && Direct() && Primary() != null && p !in Footprint() && 2 <= p.Length
      modifies p, Primary(), `run
      ensures Valid() && n <= p.Length && run == old(run).(served := old(run).served + p[..n])
      ensures Primary().pos == old(Primary().pos) + n
      ensures Primary().failures == old(Primary().failures) + Count(err.Failure?)
      ensures err.EndOfStream? ==> Rest() == []
      ensures err.NoError? ==> n > 0
    {
      hide Playing, Fading, Holds;
      var src := Primary();
      ghost var rest := src.Rest();
      n, err := src.Read(p, 0, p.Length);
      ghost var part := p[..n];
      assert part == p[0..0 + n];
      assert rest == part + src.Rest();
      Refill(Mix(), run, [], rest, part, src.Rest());
      ServePlain(Mix(), run, [] + part, src.Rest(), part, []);
      run := run.(served := run.served + part);
    }

    /** Goes on to the waiting track without a fade. */
    method SwitchOver()
      requires Valid() && Direct() && Primary() != null && Secondary() != null && Rest() == []
      modifies `slot, `otherSlot, `which, `run
      ensures Valid() && Primary() == old(Secondary()) && Secondary() == null
      ensures run == Run(old(run.served), old(run.legs) + [Leg(old(run.track), 0)], Primary().Rest())
    {
      hide Playing, Fading, Holds;
      Switch(Mix(), run, Secondary().Rest());
      run := Run(run.served, run.legs + [Leg(run.track, 0)], Secondary().Rest());
      Put(which, null);
      which := !which;
    }

    /** The track is over: it is reported done, and the waiting one goes on if there is one. */
    method EndDirect() returns (err: ReadError)
      requires Valid() && Direct() && Primary() != null && Rest() == []
      modifies `slot, `otherSlot, `which, `run, `eofReported, `doneSignal
      ensures Valid() && eofReported && doneSignal == (old(doneSignal) || !old(eofReported))
      ensures if old(Secondary()) == null then
                err.EndOfStream? && Primary() == old(Primary()) && Secondary() == null && run == old(run)
              else
                && err.NoError? && Primary() == old(Secondary()) && Secondary() == null
                && run == Run(old(run.served), old(run.legs) + [Leg(old(run.track), 0)], Primary().Rest())
    {
      hide Playing, Fading, Holds, Aligned, CutOut;
      err := EndOfStream;
      ReportDone();
      if Secondary() != null {
        SwitchOver();
        err := NoError;
      }
    }

    method ReadDirect(p: array<real>) returns (n: nat, err: ReadError)
      requires Valid() && Direct() && Primary() != null && p !in Footprint() && 2 <= p.Length
      modifies p, Primary(), `slot, `otherSlot, `which, `run, `eofReported, `doneSignal
      ensures Valid() && n <= p.Length && run.served == old(run.served) + p[..n]
      ensures if |run.legs| == |old(run.legs)| then SameTrack(false)
              else HandedOver(0, false) && err.NoError? && old(Primary()).pos == |old(Primary()).samples|
      ensures Reported(old(Primary()), old(Secondary()), err) && Signalled(err)
      ensures err.EndOfStream? ==> SameTrack(false) && Secondary() == null && Rest() == []
      ensures err.NoError? ==> n > 0 || HandedOver(0, false)
    {
      hide Playing, Fading, Holds, Aligned, CutOut;
      n, err := ServeDirect(p);
      if err.EndOfStream? {
        err := EndDirect();
      }
    }

    /** Starts the fade into the waiting track and serves the first of it. */
    method StartFade(p: array<real>) returns (n: nat, err: ReadError)
      requires Valid() && !fading && primaryEOF && Secondary() != null && ring.bufLen <= crossfadeSamples
      requires p !in Footprint() && 2 <= p.Length
      modifies this, ring, scratch, p, slot, otherSlot
      ensures Valid() && HandedOver(old(ring.bufLen), err.Failure?)
      ensures Primary().failures == old(Secondary().failures) + Count(err.Failure?) && pendingErr == old(pendingErr)
      ensures old(Primary()) != old(Secondary()) ==> old(Primary()).failures == old(Primary().failures)
      ensures n <= p.Length && run.served == old(run.served) + p[..n]
      ensures !err.EndOfStream? && (err.Failure? ==> fading)
      ensures eofReported && doneSignal == (old(doneSignal) || !old(eofReported))
      ensures !fading ==> !primaryEOF && ring.bufLen == 0
      ensures old(Primary()).pos == old(Primary().pos)
    {
      hide Playing, Fading, Holds, CutOut, Aligned;
      BeginFade();
      ghost var src, from := Primary(), Primary().pos;
      n, err := ReadFade(p);
      CutStart(src.samples, from, src.pos);
    }

    /** Plays out the end of the last track. */
    method DrainTail(p: array<real>) returns (n: nat, err: ReadError)
      requires Valid() && !fading && primaryEOF && Secondary() == null && p !in Footprint() && 2 <= p.Length
      modifies ring, p, `run, `eofReported, `doneSignal
      ensures Valid() && n <= p.Length && run == old(run).(served := old(run).served + p[..n])
      ensures err.EndOfStream? <==> ring.bufLen == 0
      ensures err.NoError? || err.EndOfStream?
      ensures err.NoError? ==> n > 0
      ensures eofReported == (old(eofReported) || err.EndOfStream?)
      ensures doneSignal == (old(doneSignal) || (eofReported && !old(eofReported)))
    {
      hide Playing, Fading, Holds, CutOut;
      n, err := 0, NoError;
      if ring.bufLen == 0 {
        ReportDone();
        NothingServed(p[..n]);
        err := EndOfStream;
      } else {
        n := Serve(p, ring.bufLen);
        if ring.bufLen == 0 {
          ReportDone();
          err := EndOfStream;
        }
      }
    }

    /** Serves what was buffered before a decoder failed, and then the failure. */
    method ServePending(p: array<real>) returns (n: nat, err: ReadError)
      requires Valid() && !fading && pendingErr && p !in Footprint() && 2 <= p.Length
      modifies ring, p, `run, `pendingErr
      ensures Valid() && n <= p.Length && run == old(run).(served := old(run).served + p[..n])
      ensures if old(ring.bufLen) > 0 then err.NoError? && pendingErr && n > 0
              else err.Failure? && !pendingErr && n == 0
    {
      hide Playing, Fading, Holds, CutOut;
      if ring.bufLen > 0 {
        err := NoError;
        n := Serve(p, ring.bufLen);
      } else {
        n, err, pendingErr := 0, Failure, false;
        NothingServed(p[..n]);
      }
    }

    /** Serves from the lookahead once it has been refilled. */
    method ServeLookahead(p: array<real>) returns (n: nat, err: ReadError)
      requires Valid() && !fading && Primary() != null && crossfadeSamples > 0
      requires primaryEOF || pendingErr || 0 < ring.bufLen
      requires p !in Footprint() && 2 <= p.Length
      modifies this, ring, scratch, p, slot, otherSlot
      ensures Valid() && n <= p.Length && run.served == old(run.served) + p[..n]
      ensures if |run.legs| == |old(run.legs)| then SameTrack(false) && !fading
              else old(primaryEOF) && HandedOver(old(ring.bufLen), err.Failure?) && old(ring.bufLen) <= crossfadeSamples
      ensures err.Failure? ==> fading == (|run.legs| > |old(run.legs)|)
      ensures Reported(old(Primary()), old(Secondary()), err) && Signalled(err)
      ensures err.EndOfStream? ==> SameTrack(false) && Secondary() == null && ring.bufLen == 0 && Rest() == []
      ensures err.NoError? ==> n > 0 || |run.legs| > |old(run.legs)|
      ensures |run.legs| == |old(run.legs)| ==> primaryEOF == old(primaryEOF)
      ensures !old(primaryEOF) && !old(pendingErr) ==>
                && ring.bufLen == old(ring.bufLen) - n && err.NoError? && !pendingErr
                && (crossfadeSamples < old(ring.bufLen) ==> crossfadeSamples <= ring.bufLen)
      ensures old(Primary()).pos == old(Primary().pos)
      ensures old(pendingErr) ==>
                (err.NoError? && pendingErr) || (err.Failure? && n == 0 && old(ring.bufLen) == 0 && !pendingErr)
      ensures |run.legs| > |old(run.legs)| && !fading ==> !primaryEOF && ring.bufLen == 0
      ensures !fading && primaryEOF && Secondary() != null ==> crossfadeSamples <= ring.bufLen
    {
      hide Playing, Fading, Holds, CutOut;
      FrameGap(ring.bufLen, crossfadeSamples);
      if !primaryEOF && !pendingErr {
        var limit := ring.bufLen - crossfadeSamples;
        if limit <= 0 {
          FrameGap(ring.bufLen, 0);
          limit := Min(ring.bufLen, p.Length);
        }
        err := NoError;
        n := ServeSome(p, limit);
      } else if pendingErr {
        n, err := ServePending(p);
      } else if Secondary() != null {
        if ring.bufLen > crossfadeSamples {
          err := NoError;
          n := ServeSome(p, ring.bufLen - crossfadeSamples);
        } else {
          n, err := StartFade(p);
        }
      } else {
        n, err := DrainTail(p);
      }
    }

    /** Refills the lookahead and serves from it. The fade a track hands over with is
        all that was buffered when its end was found and the next track was there. */
    method ReadAhead(p: array<real>) returns (n: nat, err: ReadError)
      requires Valid() && !fading && crossfadeSamples > 0 && Primary() != null && p !in Footprint() && 2 <= p.Length
      modifies this, ring, ring.buf, scratch, p, slot, otherSlot
      ensures Valid() && n <= p.Length && run.served == old(run.served) + p[..n]
      ensures if |run.legs| == |old(run.legs)| then SameTrack(false) && !fading
              else
                && |run.legs| > |old(run.legs)| && HandedOver(run.legs[|run.legs|-1].fade, err.Failure?)
                && run.legs[|run.legs|-1].fade <= crossfadeSamples
                && old(Primary()).pos == |old(Primary()).samples|
                && run.legs[|run.legs|-1].fade == old(ring.bufLen) + (old(Primary()).pos - old(Primary().pos))
      ensures err.Failure? ==> fading == (|run.legs| > |old(run.legs)|)
      ensures Reported(old(Primary()), old(Secondary()), err) && Signalled(err)
      ensures err.EndOfStream? ==> SameTrack(false) && Secondary() == null && ring.bufLen == 0 && Rest() == []
      ensures err.NoError? ==> n > 0 || |run.legs| > |old(run.legs)|
      ensures |run.legs| > |old(run.legs)| && !fading ==> !primaryEOF && ring.bufLen == 0
      ensures !fading && primaryEOF && Secondary() != null ==> crossfadeSamples <= ring.bufLen
      ensures |run.legs| == |old(run.legs)| && !primaryEOF && !pendingErr && err.NoError? ==>
                && (crossfadeSamples <= old(ring.bufLen) ==> crossfadeSamples <= ring.bufLen)
                && (crossfadeSamples <= ring.bufLen || old(ring.bufLen) + FILL_BUDGET - p.Length <= ring.bufLen)
    {
      hide Playing, Fading, Holds, Aligned, CutOut, Count;
      Fill();
      n, err := ServeLookahead(p);
    }

    /** The buffered path. */
    method ReadCrossfade(p: array<real>) returns (n: nat, err: ReadError)
      requires Valid() && crossfadeSamples > 0 && Primary() != null && p !in Footprint() && 2 <= p.Length
      modifies this, ring, ring.buf, scratch, p, slot, otherSlot
      ensures Valid() && n <= p.Length && run.served == old(run.served) + p[..n]
      ensures if |run.legs| == |old(run.legs)| then SameTrack(err.Failure? && fading) && (fading ==> old(fading))
              else
                && |run.legs| > |old(run.legs)| && !old(fading) && HandedOver(run.legs[|run.legs|-1].fade, err.Failure?)
                && run.legs[|run.legs|-1].fade <= crossfadeSamples
                && old(Primary()).pos == |old(Primary()).samples|
                && run.legs[|run.legs|-1].fade == old(ring.bufLen) + (old(Primary()).pos - old(Primary().pos))
      ensures err.Failure? && |run.legs| > |old(run.legs)| ==> fading
      ensures Reported(old(Primary()), old(Secondary()), err) && Signalled(err)
      ensures err.EndOfStream? ==>
                SameTrack(false) && Secondary() == null && ring.bufLen == 0 && Rest() == [] && !fading
      ensures err.NoError? ==> n > 0 || |run.legs| > |old(run.legs)|
      ensures (old(fading) || |run.legs| > |old(run.legs)|) && !fading ==> !primaryEOF && ring.bufLen == 0
      ensures !fading && primaryEOF && Secondary() != null ==> crossfadeSamples <= ring.bufLen
      ensures !old(fading) && |run.legs| == |old(run.legs)| && !primaryEOF && !pendingErr && err.NoError? ==>
                && (crossfadeSamples <= old(ring.bufLen) ==> crossfadeSamples <= ring.bufLen)
                && (crossfadeSamples <= ring.bufLen || old(ring.bufLen) + FILL_BUDGET - p.Length <= ring.bufLen)
    {
      hide Playing, Fading, Holds, Aligned, CutOut;
      if fading {
        n, err := ReadFade(p);
      } else {
        n, err := ReadAhead(p);
      }
    }

    /** One read. The wait for a primary source is over when this is called. */
    method Read(p: array<real>) returns (n: nat, err: ReadError)
      requires Valid() && Primary() != null && p !in Footprint() && 2 <= p.Length
      modifies this, ring, ring.buf, scratch, p, slot, otherSlot
      ensures Valid() && n <= p.Length && run.served == old(run.served) + p[..n]
      ensures if |run.legs| == |old(run.legs)| then SameTrack(err.Failure? && fading) && (fading ==> old(fading))
              else
                && |run.legs| > |old(run.legs)| && !old(fading) && HandedOver(run.legs[|run.legs|-1].fade, err.Failure?)
                && old(Primary()).pos == |old(Primary()).samples|
                && run.legs[|run.legs|-1].fade <= crossfadeSamples
                && run.legs[|run.legs|-1].fade ==
                     if old(Direct()) then 0 else old(ring.bufLen) + (old(Primary()).pos - old(Primary().pos))
      ensures err.Failure? && |run.legs| > |old(run.legs)| ==> fading
      ensures Reported(old(Primary()), old(Secondary()), err) && Signalled(err)
      ensures err.EndOfStream? ==>
                SameTrack(false) && Secondary() == null && ring.bufLen == 0 && Rest() == [] && !fading
      ensures err.NoError? ==> n > 0 || |run.legs| > |old(run.legs)|
      ensures old(TailKept()) ==> TailKept()
      ensures old(TailKept()) && old(Primary().noCrossfade) && |run.legs| > |old(run.legs)| ==>
                run.legs[|run.legs|-1].fade == 0
      ensures !fading && primaryEOF && Secondary() != null ==> crossfadeSamples <= ring.bufLen
      ensures !old(Direct()) && !old(fading) && |run.legs| == |old(run.legs)| &&
              !primaryEOF && !pendingErr && err.NoError? ==>
                && (crossfadeSamples <= old(ring.bufLen) ==> crossfadeSamples <= ring.bufLen)
                && (crossfadeSamples <= ring.bufLen || old(ring.bufLen) + FILL_BUDGET - p.Length <= ring.bufLen)
    {
      hide Playing, Fading, Holds, Aligned, CutOut;
      if crossfadeSamples == 0 || (!fading && ring.bufLen == 0 && !primaryEOF && Primary().noCrossfade) {
        n, err := ReadDirect(p);
      } else {
        n, err := ReadCrossfade(p);
      }
    }
  }
}
