/** Runs of the switching source over any number of tracks, each queued whenever
    the player gets to it: before the end of the one playing, during a fade, or
    after playback has come to its end. */
module QueueRuns {
  import opened Mixing
  import opened Rings
  import opened Decoders
  import opened Accounting
  import opened SwitchingSource

  datatype Step = Read(size: nat) | Queue(src: AudioSource?)

  function Reads(steps: seq<Step>): nat {
    if steps == [] then 0 else Reads(steps[..|steps|-1]) + Count(steps[|steps|-1].Read?)
  }

  /** Something is playing, and only the given sources are involved. */
  ghost predicate Among(s: SwitchingAudioSource, srcs: set<AudioSource>)
    reads s, s.ring, s.ring.buf, s.slot, s.otherSlot, srcs
  {
    && s.Valid() && s.Primary() != null && (forall src :: src in srcs ==> src.Valid())
    && (s.slot != null ==> s.slot in srcs) && (s.otherSlot != null ==> s.otherSlot in srcs)
  }

  predicate Allowed(step: Step, srcs: set<AudioSource>) {
    if step.Read? then 2 <= step.size else step.src == null || step.src in srcs
  }

  predicate AllReliable(srcs: set<AudioSource>) {
    forall src :: src in srcs ==> src.reliable
  }

  ghost predicate Distinct(order: seq<AudioSource>) {
    forall i, j :: 0 <= i < j < |order| ==> order[i] != order[j]
  }

  /** What the run had of its i-th track, the current one being the last. */
  function TrackAt(run: Run, i: nat): seq<real>
    requires i <= |run.legs|
  {
    if i < |run.legs| then run.legs[i].track else run.track
  }

  /** Nothing is left to be served of the tracks so far. */
  ghost predicate PlayedOut(s: SwitchingAudioSource)
    requires s.Valid()
    reads s, s.ring, s.ring.buf, s.slot, s.otherSlot
  {
    !s.fading && s.ring.bufLen == 0 && s.Rest() == []
  }

  /** The output of any number of tracks, sample by sample: all but the last `fade`
      samples of what was to be heard up to the last leg, then these and the start of
      the current track, each times its gain, within the bounds of a sample, then the
      rest of the current track. */
  lemma OutputSample(gains: Gains, legs: seq<Leg>, current: seq<real>, i: nat)
    requires legs != [] && Playable(legs) && i < |Output(GainMixer(gains), legs, current)|
    ensures Playable(legs[..|legs|-1])
    ensures legs[|legs|-1].fade <= |Output(GainMixer(gains), legs[..|legs|-1], legs[|legs|-1].track)|
    ensures var n := |legs| - 1;
      var before, fade := Output(GainMixer(gains), legs[..n], legs[n].track), legs[n].fade;
      var x, j := Output(GainMixer(gains), legs, current)[i], i - (|before| - fade);
      if j < 0 then x == before[i]
      else if j >= fade then j < |current| && x == current[j]
      else
        var m := before[i] * gains.fadeOut(j - j % 2, fade) +
          if j < |current| then current[j] * gains.fadeIn(j - j % 2, fade) else 0.0;
        x == if m < -1.0 then -1.0 else if m > 32767.0 / 32768.0 then 32767.0 / 32768.0 else m
  {
    hide Overlap, GainMixer;
    var n := |legs| - 1;
    var before, fade := Output(GainMixer(gains), legs[..n], legs[n].track), legs[n].fade;
    OverlapPlain(GainMixer(gains), before, current, fade);
    var j := i - (|before| - fade);
    if 0 <= j < fade {
      OverlapSample(gains, before, current, fade, j);
    }
  }

  lemma RunServed(s: SwitchingAudioSource)
    requires s.Valid()
    ensures Playable(s.run.legs) && s.run.served <= Output(s.Mix(), s.run.legs, s.run.track)
    ensures PlayedOut(s) ==> s.run.served == Output(s.Mix(), s.run.legs, s.run.track)
  {
    hide Output;
    ServedIsPrefix(s.Mix(), s.run, s.ring.contents, s.Rest(), s.fadeTotal, s.fadePos);
    if PlayedOut(s) {
      assert s.run.served + (s.ring.contents + s.Rest()) == s.run.served;
    }
  }

  /** One read: the same track goes on, or the one waiting takes over. */
  method ReadStep(s: SwitchingAudioSource, srcs: set<AudioSource>, size: nat) returns (part: seq<real>, err: ReadError)
    requires Among(s, srcs) && 2 <= size
    modifies s, s.ring, s.ring.buf, s.scratch, srcs
    ensures Among(s, srcs) && s.run.served == old(s.run.served) + part
    ensures forall src :: src in srcs && src != old(s.Primary()) && src != s.Primary() ==> src.pos == old(src.pos)
    ensures |s.run.legs| >= |old(s.run.legs)|
    ensures if |s.run.legs| == |old(s.run.legs)| then
              && s.Primary() == old(s.Primary()) && s.Secondary() == old(s.Secondary())
              && s.run.legs == old(s.run.legs) && (!err.Failure? ==> s.run.track == old(s.run.track))
            else
              && s.Primary() == old(s.Secondary()) && s.Secondary() == null
              && (exists fade :: 0 <= fade <= s.crossfadeSamples
                    && s.run.legs == old(s.run.legs) + [Leg(old(s.run.track), fade)])
              && (!err.Failure? && s.Primary() != old(s.Primary()) ==> s.run.track == old(s.Secondary().Rest()))
    ensures AllReliable(srcs) && !old(s.pendingErr) ==> !err.Failure? && !s.pendingErr
    ensures old(s.TailKept()) ==> s.TailKept()
    ensures old(s.TailKept()) && old(s.Primary().noCrossfade) && |s.run.legs| > |old(s.run.legs)| ==>
      s.run.legs[|s.run.legs|-1].fade == 0
    ensures err.NoError? ==> |part| + |s.run.legs| > |old(s.run.legs)|
    ensures err.EndOfStream? ==> PlayedOut(s)
  {
    hide Playing, Fading, Output, CutOut, Holds, Aligned;
    var p := new real[size];
    var n;
    n, err := s.Read(p);
    part := p[..n];
  }

  /** What each source has yet to give. */
  ghost function Rests(srcs: set<AudioSource>): (rests: map<AudioSource, seq<real>>)
    requires forall src :: src in srcs ==> src.Valid()
    reads srcs
    ensures rests.Keys == srcs
  {
    map src | src in srcs :: src.Rest()
  }

  /** The sources played in turn since the run was at `first`, and the legs that gave. */
  ghost predicate InTurn(run: Run, first: Run, order: seq<AudioSource>, longest: nat) {
    && order != [] && |run.legs| == |first.legs| + |order| - 1 && first.legs <= run.legs
    && (forall i :: |first.legs| <= i < |run.legs| ==> run.legs[i].fade <= longest)
  }

  /** Each of them was heard in full: the first from where it was, the others all
      they had to give. */
  ghost predicate InFull(run: Run, first: Run, order: seq<AudioSource>, rests: map<AudioSource, seq<real>>)
    requires order != [] && |run.legs| == |first.legs| + |order| - 1 && forall src :: src in order ==> src in rests
  {
    && TrackAt(run, |first.legs|) == first.track
    && forall i :: 1 <= i < |order| ==> TrackAt(run, |first.legs| + i) == rests[order[i]]
  }

  /** A track that declines to be crossfaded is heard to its end alone. */
  ghost predicate Unfaded(run: Run, first: Run, order: seq<AudioSource>)
    requires order != [] && |run.legs| == |first.legs| + |order| - 1
  {
    forall i :: 0 <= i < |order| - 1 && order[i].noCrossfade ==> run.legs[|first.legs| + i].fade == 0
  }

  lemma StillUnfaded(run: Run, run': Run, fade: nat, first: Run, order: seq<AudioSource>, next: AudioSource)
    requires order != [] && |run.legs| == |first.legs| + |order| - 1 && Unfaded(run, first, order)
    requires run'.legs == run.legs + [Leg(run.track, fade)] && (order[|order|-1].noCrossfade ==> fade == 0)
    ensures Unfaded(run', first, order + [next])
  {}

  lemma TakesTurn(
    run: Run, run': Run, fade: nat, first: Run, order: seq<AudioSource>, longest: nat,
    rests: map<AudioSource, seq<real>>, next: AudioSource)
    requires InTurn(run, first, order, longest) && run'.legs == run.legs + [Leg(run.track, fade)] && fade <= longest
    requires next in rests && forall src :: src in order ==> src in rests
    ensures InTurn(run', first, order + [next], longest)
    ensures InFull(run, first, order, rests) && run'.track == rests[next] ==>
      InFull(run', first, order + [next], rests)
  {
    if InFull(run, first, order, rests) && run'.track == rests[next] {
      forall i | 1 <= i < |order| + 1
        ensures TrackAt(run', |first.legs| + i) == rests[(order + [next])[i]]
      {
        if i < |order| {
          assert TrackAt(run', |first.legs| + i) == TrackAt(run, |first.legs| + i);
        }
      }
    }
  }

  /** Sources that have not had their turn have all they had. */
  ghost predicate Untouched(srcs: set<AudioSource>, order: seq<AudioSource>, rests: map<AudioSource, seq<real>>)
    requires rests.Keys == srcs && forall src :: src in srcs ==> src.Valid()
    reads srcs
  {
    forall src :: src in srcs && src !in order ==> src.Rest() == rests[src]
  }

  /** The sources played in turn, the last of which is playing. */
  ghost predicate Turns(
    s: SwitchingAudioSource, srcs: set<AudioSource>, first: Run, order: seq<AudioSource>,
    rests: map<AudioSource, seq<real>>)
    requires rests.Keys == srcs
    reads s, s.ring, s.ring.buf, s.slot, s.otherSlot, srcs
  {
    && Among(s, srcs) && InTurn(s.run, first, order, s.crossfadeSamples)
    && order[|order|-1] == s.Primary() && (forall src :: src in order ==> src in srcs)
    && Untouched(srcs, order, rests)
  }

  lemma NotYet(order: seq<AudioSource>, next: AudioSource)
    ensures Distinct(order + [next]) ==> next !in order
  {
    var order' := order + [next];
    if Distinct(order') {
      forall i | 0 <= i < |order| ensures order[i] != next {
        assert order'[i] != order'[|order|];
      }
    }
  }

  /** Queueing leaves everything but what waits as it was. */
  method QueueStep(
    s: SwitchingAudioSource, srcs: set<AudioSource>, src: AudioSource?,
    ghost first: Run, ghost order: seq<AudioSource>, ghost rests: map<AudioSource, seq<real>>)
    requires rests.Keys == srcs && Turns(s, srcs, first, order, rests) && (src == null || src in srcs)
    modifies s`slot, s`otherSlot
    ensures Turns(s, srcs, first, order, rests) && s.Secondary() == src
    ensures s.Primary() == old(s.Primary()) && (PlayedOut(s) <==> old(PlayedOut(s)))
    ensures old(s.TailKept()) ==> s.TailKept()
  {
    hide Playing, Fading, Output, Holds, Aligned, InFull, Untouched;
    s.SetSecondary(src);
  }

  /** One read of such a run: the order stays, or the waiting source takes its turn. */
  method TurnStep(
    s: SwitchingAudioSource, srcs: set<AudioSource>, size: nat,
    ghost first: Run, ghost order: seq<AudioSource>, ghost rests: map<AudioSource, seq<real>>)
    returns (part: seq<real>, err: ReadError, ghost order': seq<AudioSource>)
    requires rests.Keys == srcs && Turns(s, srcs, first, order, rests) && 2 <= size
    modifies s, s.ring, s.ring.buf, s.scratch, srcs
    ensures Turns(s, srcs, first, order', rests) && s.run.served == old(s.run.served) + part
    ensures if |s.run.legs| == |old(s.run.legs)| then order' == order && s.Secondary() == old(s.Secondary())
            else s.Primary() == old(s.Secondary()) && order' == order + [s.Primary()] && s.Secondary() == null
    ensures old(InFull(s.run, first, order, rests)) && !err.Failure? && Distinct(order') ==>
      InFull(s.run, first, order', rests)
    ensures old(s.TailKept()) && old(Unfaded(s.run, first, order)) ==> s.TailKept() && Unfaded(s.run, first, order')
    ensures AllReliable(srcs) && !old(s.pendingErr) ==> !err.Failure? && !s.pendingErr
    ensures err.NoError? ==> |part| + |order'| > |order|
    ensures err.EndOfStream? ==> PlayedOut(s)
  {
    hide Playing, Fading, Output, CutOut, Holds, Aligned, SwitchingAudioSource.Valid;
    ghost var before, next := s.run, s.Secondary();
    part, err := ReadStep(s, srcs, size);
    order' := order;
    if |s.run.legs| > |before.legs| {
      ghost var fade :| 0 <= fade <= s.crossfadeSamples && s.run.legs == before.legs + [Leg(before.track, fade)];
      TakesTurn(before, s.run, fade, first, order, s.crossfadeSamples, rests, next);
      order' := order + [next];
      NotYet(order, next);
      if old(s.TailKept()) && Unfaded(before, first, order) {
        StillUnfaded(before, s.run, fade, first, order, next);
      }
    }
  }

  /** One step of such a run, with the error of the read if it was one. */
  method Advance(
    s: SwitchingAudioSource, srcs: set<AudioSource>, step: Step,
    ghost first: Run, ghost order: seq<AudioSource>, ghost rests: map<AudioSource, seq<real>>)
    returns (part: seq<real>, errs: seq<ReadError>, ghost order': seq<AudioSource>)
    requires rests.Keys == srcs && Turns(s, srcs, first, order, rests) && Allowed(step, srcs)
    modifies s, s.ring, s.ring.buf, s.scratch, srcs
    ensures Turns(s, srcs, first, order', rests) && s.run.served == old(s.run.served) + part
    ensures |errs| == Count(step.Read?)
    ensures PlayedOut(s) || if errs == [] then !old(PlayedOut(s)) else !errs[0].EndOfStream?
    ensures s.Secondary() == null || s.Secondary() == old(s.Secondary()) || step == Queue(s.Secondary())
    ensures order' == order || (old(s.Secondary()) != null && order' == order + [old(s.Secondary())])
    ensures old(InFull(s.run, first, order, rests)) && Failure !in errs && Distinct(order') ==>
      InFull(s.run, first, order', rests)
    ensures old(s.TailKept()) && old(Unfaded(s.run, first, order)) ==> s.TailKept() && Unfaded(s.run, first, order')
    ensures AllReliable(srcs) && !old(s.pendingErr) ==> Failure !in errs && !s.pendingErr
    ensures NoError in errs ==> |part| + |order'| > |order|
  {
    hide Playing, Fading, Output, CutOut, Holds, Aligned, SwitchingAudioSource.Valid, InFull, Untouched, PlayedOut,
      Unfaded, SwitchingAudioSource.TailKept;
    part, errs, order' := [], [], order;
    match step {
      case Queue(src) =>
        QueueStep(s, srcs, src, first, order, rests);
      case Read(size) =>
        var err;
        part, err, order' := TurnStep(s, srcs, size, first, order, rests);
        errs := [err];
    }
  }

  /** How many reads gave no error. */
  function Successes(errs: seq<ReadError>): nat {
    multiset(errs)[NoError]
  }

  lemma NoReads()
    ensures Successes([]) == 0
  {}

  lemma MoreErrors(errs: seq<ReadError>, more: seq<ReadError>)
    requires |more| <= 1
    ensures Successes(errs + more) == Successes(errs) + Count(NoError in more)
  {
    if more != [] {
      assert more == [more[0]];
    }
  }

  lemma Shorter(order: seq<AudioSource>, order': seq<AudioSource>)
    requires order <= order'
    ensures Distinct(order') ==> Distinct(order)
  {}

  lemma FirstTurn(s: SwitchingAudioSource, srcs: set<AudioSource>)
    requires Among(s, srcs)
    ensures Turns(s, srcs, s.run, [s.Primary()], Rests(srcs)) && InFull(s.run, s.run, [s.Primary()], Rests(srcs))
    ensures Unfaded(s.run, s.run, [s.Primary()])
  {}

  /** It was waiting when the run began or was queued since. */
  predicate Known(src: AudioSource, waiting: AudioSource?, steps: seq<Step>) {
    src == waiting || Queue(src) in steps
  }

  predicate AllKnown(order: seq<AudioSource>, waiting: AudioSource?, steps: seq<Step>) {
    forall i :: 1 <= i < |order| ==> Known(order[i], waiting, steps)
  }

  lemma KnownMore(order: seq<AudioSource>, next: AudioSource?, waiting: AudioSource?, steps: seq<Step>)
    requires AllKnown(order, waiting, steps) && (next == null || Known(next, waiting, steps))
    ensures next != null ==> AllKnown(order + [next], waiting, steps)
  {}

  lemma NoneKnown(src: AudioSource, waiting: AudioSource?, steps: seq<Step>)
    ensures AllKnown([src], waiting, steps)
  {}

  /** Any reads, and any tracks queued in between. All that was served is the
      beginning of what the tracks played make up, each overlapped with the one
      before it by the fade it was handed over with, and the whole of it once the
      end is reported. A run without failures plays each track in full. */
  method PlayQueue(s: SwitchingAudioSource, srcs: set<AudioSource>, steps: seq<Step>)
    returns (out: seq<real>, errs: seq<ReadError>, ghost order: seq<AudioSource>)
    requires Among(s, srcs) && forall i :: 0 <= i < |steps| ==> Allowed(steps[i], srcs)
    modifies s, s.ring, s.ring.buf, s.scratch, srcs
    ensures Among(s, srcs) && s.run.served == old(s.run.served) + out
    ensures Playable(s.run.legs) && s.run.served <= Output(s.Mix(), s.run.legs, s.run.track)
    ensures PlayedOut(s) ==> s.run.served == Output(s.Mix(), s.run.legs, s.run.track)
    ensures |errs| == Reads(steps) && (errs != [] && errs[|errs|-1].EndOfStream? ==> PlayedOut(s))
    ensures Successes(errs) <= |out| + |order| - 1
    ensures InTurn(s.run, old(s.run), order, s.crossfadeSamples)
    ensures order[0] == old(s.Primary()) && order[|order|-1] == s.Primary()
    ensures forall src :: src in order ==> src in srcs
    ensures AllKnown(order, old(s.Secondary()), steps)
    ensures Failure !in errs && Distinct(order) ==> InFull(s.run, old(s.run), order, old(Rests(srcs)))
    ensures old(s.TailKept()) ==> Unfaded(s.run, old(s.run), order)
    ensures AllReliable(srcs) && !old(s.pendingErr) ==> Failure !in errs
  {
    hide Playing, Fading, Output, CutOut, Holds, Aligned, SwitchingAudioSource.Valid, InFull, Untouched, PlayedOut,
      Successes, Unfaded, SwitchingAudioSource.TailKept, AllKnown, Distinct;
    NoReads();
    assert AllKnown([s.Primary()], s.Secondary(), steps) by { NoneKnown(s.Primary(), s.Secondary(), steps); }
    out, errs, order := [], [], [s.Primary()];
    ghost var first, rests := s.run, Rests(srcs);
    FirstTurn(s, srcs);
    assert steps[..|steps|] == steps;
    for k := 0 to |steps|
      invariant Turns(s, srcs, first, order, rests) && s.run.served == first.served + out
      invariant |errs| == Reads(steps[..k]) && (errs != [] && errs[|errs|-1].EndOfStream? ==> PlayedOut(s))
      invariant Successes(errs) <= |out| + |order| - 1
      invariant order[0] == old(s.Primary())
      invariant s.Secondary() == null || Known(s.Secondary(), old(s.Secondary()), steps)
      invariant AllKnown(order, old(s.Secondary()), steps)
      invariant Failure !in errs && Distinct(order) ==> InFull(s.run, first, order, rests)
      invariant old(s.TailKept()) ==> s.TailKept() && Unfaded(s.run, first, order)
      invariant AllReliable(srcs) && !old(s.pendingErr) ==> Failure !in errs && !s.pendingErr
    {
      assert steps[..k + 1][..k] == steps[..k];
      var part, more;
      ghost var order', next := order, s.Secondary();
      part, more, order' := Advance(s, srcs, steps[k], first, order, rests);
      Shorter(order, order');
      KnownMore(order, next, old(s.Secondary()), steps);
      MoreErrors(errs, more);
      out, errs, order := out + part, errs + more, order';
    }
    RunServed(s);
  }
}
