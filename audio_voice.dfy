/**
 * The per-voice state machine of the software mixer: deferred pitch and
 * sample-rate changes, start/stop, unbinding, the resampler's input pull,
 * the per-period pump with its routing to submixes, and the per-submix
 * channel levels.
 *
 * The mono and stereo voice classes of the source are one class `Voice`
 * whose `kind` selects the channel count; the three pump variants (16-bit,
 * 32-bit and float samples) are one method selected by `SampleFormat`.
 * Calls into code outside this model (the resampler, the client callbacks,
 * the matrix mixing and the engine's unbinding) are recorded, in order, in
 * the voice's ghost `events` log; what they answer is passed in as a
 * parameter.
 */
module AudioVoice {
  import opened Wrappers

  newtype Int16 = x: int | -0x8000 <= x < 0x8000
  newtype Int32 = x: int | -0x8000_0000 <= x < 0x8000_0000

  /** The two voice classes: mono or stereo interleaved dry input. */
  datatype VoiceKind = Mono | Stereo

  function Channels(kind: VoiceKind): nat
  {
    if kind == Mono then 1 else 2
  }

  /** Which of the three pump variants runs, and so which scratch pair it uses. */
  datatype SampleFormat = Int16Samples | Int32Samples | FloatSamples

  /** Identity of a submix (an `IAudioSubmix*` that is not null). */
  type SubmixId = nat

  /** Coefficients handed to a channel matrix: eight per destination channel for a
      mono matrix, eight (left, right) pairs for a stereo one. Float values are only
      copied here, so they are carried as `real`. */
  datatype Gains = MonoGains(column: seq<real>) | StereoGains(rows: seq<(real, real)>)

  /** A send's matrix, as the last `setMatrixCoefficients` call configured it. */
  datatype SendMatrix = SendMatrix(gains: Gains, slewFrames: nat)

  /** The matrix a mix uses: the process-wide default one, or a send's own. */
  datatype MixMatrix = DefaultMatrix | Send(matrix: SendMatrix)

  /** The calls a voice makes into code outside this model. */
  datatype Event =
    | ResamplerDelete
      /** soxr_create(rateIn, rateOut, channels), variable-rate quality when `variableRate` */
    | ResamplerCreate(rateIn: real, rateOut: real, channels: nat, variableRate: bool)
    | InputFnSet
      /** soxr_set_io_ratio(ratio * rateIn / rateOut, slewFrames) */
    | SetIoRatio(ratio: real, rateIn: real, rateOut: real, slewFrames: nat)
    | FatalReport
    | PreSupply(frames: nat)
      /** soxr_output for `frames` frames, logged as it returns, after the input pulls
          it made */
    | Output(frames: nat)
    | SupplyAudio(frames: nat)
    | Route(frames: nat, channels: nat, submix: SubmixId)
    | Mix(submix: SubmixId, format: SampleFormat, frames: nat, channels: nat, matrix: MixMatrix)
      /** the engine's _unbindFrom for this voice */
    | EngineUnbind

  /** The voice's rate-control fields: m_setPitchRatio, m_pitchRatio, m_slew,
      m_resetSampleRate, m_deferredSampleRate, m_sampleRateIn, m_sampleRateOut. */
  datatype Control = Control(
    pitchPending: bool, pitchRatio: real, slew: bool,
    resetPending: bool, deferredRate: real,
    rateIn: real, rateOut: real)

  /** What the resampler answers during one deferred update: whether soxr_create
      reported an error, whether it returned a null handle, and whether
      soxr_set_io_ratio reported an error. */
  datatype Replies = Replies(createErr: bool, createNull: bool, ratioErr: bool)

  /** The new control fields and the calls made on the way. */
  datatype Step = Step(ctl: Control, events: seq<Event>)

  /** The mono voice tests the reported error, the stereo voice the returned handle. */
  function CreateFailed(kind: VoiceKind, replies: Replies): bool
  {
    if kind == Mono then replies.createErr else replies.createNull
  }

  /** _setPitchRatio */
  function PitchRatioStep(ctl: Control, dynamicRate: bool, ratio: real, slew: bool,
                          fiveMsFrames: nat, err: bool): (r: Step)
    ensures !r.ctl.pitchPending
    ensures r.events != [] <==> dynamicRate
  {
    var calls :=
      if dynamicRate then
        [SetIoRatio(ratio, ctl.rateIn, ctl.rateOut, if slew then fiveMsFrames else 0)]
        + (if err then [FatalReport] else [])
      else [];
    Step(ctl.(pitchPending := false), calls)
  }

  /** _resetSampleRate: rebuild the resampler for `rate` against the mix rate, then
      apply the stored pitch ratio without slew. */
  function SampleRateStep(ctl: Control, kind: VoiceKind, dynamicRate: bool, rate: real,
                          mixRate: real, fiveMsFrames: nat, replies: Replies): (r: Step)
    ensures !r.ctl.resetPending
    ensures |r.events| >= 3
    ensures r.events[..2] == [ResamplerDelete, ResamplerCreate(rate, mixRate, Channels(kind), dynamicRate)]
    ensures r.events[2] == (if CreateFailed(kind, replies) then FatalReport else InputFnSet)
  {
    var rebuild := [ResamplerDelete, ResamplerCreate(rate, mixRate, Channels(kind), dynamicRate)];
    if CreateFailed(kind, replies) then
      Step(ctl.(resetPending := false), rebuild + [FatalReport])
    else
      var p := PitchRatioStep(ctl.(rateIn := rate, rateOut := mixRate), dynamicRate,
                              ctl.pitchRatio, false, fiveMsFrames, replies.ratioErr);
      Step(p.ctl.(resetPending := false), rebuild + [InputFnSet] + p.events)
  }

  /** _midUpdate: a pending sample-rate reset, then a pending pitch change. */
  function MidUpdateStep(ctl: Control, kind: VoiceKind, dynamicRate: bool, mixRate: real,
                         fiveMsFrames: nat, replies: Replies): Step
  {
    var r :=
      if ctl.resetPending then
        SampleRateStep(ctl, kind, dynamicRate, ctl.deferredRate, mixRate, fiveMsFrames, replies)
      else Step(ctl, []);
    var p :=
      if r.ctl.pitchPending then
        PitchRatioStep(r.ctl, dynamicRate, r.ctl.pitchRatio, r.ctl.slew, fiveMsFrames, replies.ratioErr)
      else Step(r.ctl, []);
    Step(p.ctl, r.events + p.events)
  }

  /** After a deferred update nothing is pending, on every path, error paths included. */
  lemma MidUpdateClearsPending(ctl: Control, kind: VoiceKind, dynamicRate: bool, mixRate: real,
                               fiveMsFrames: nat, replies: Replies)
    ensures !MidUpdateStep(ctl, kind, dynamicRate, mixRate, fiveMsFrames, replies).ctl.pitchPending
    ensures !MidUpdateStep(ctl, kind, dynamicRate, mixRate, fiveMsFrames, replies).ctl.resetPending
  {
  }

  /** The update leaves the recorded requests alone, and the rates change exactly when a
      reset succeeds. */
  lemma MidUpdateRates(ctl: Control, kind: VoiceKind, dynamicRate: bool, mixRate: real,
                       fiveMsFrames: nat, replies: Replies)
    ensures var c := MidUpdateStep(ctl, kind, dynamicRate, mixRate, fiveMsFrames, replies).ctl;
      && c.pitchRatio == ctl.pitchRatio && c.slew == ctl.slew && c.deferredRate == ctl.deferredRate
      && (if ctl.resetPending && !CreateFailed(kind, replies)
          then c.rateIn == ctl.deferredRate && c.rateOut == mixRate
          else c.rateIn == ctl.rateIn && c.rateOut == ctl.rateOut)
  {
  }

  /** Nothing pending: the update calls nothing and changes nothing. */
  lemma MidUpdateIdle(ctl: Control, kind: VoiceKind, dynamicRate: bool, mixRate: real,
                      fiveMsFrames: nat, replies: Replies)
    requires !ctl.pitchPending && !ctl.resetPending
    ensures MidUpdateStep(ctl, kind, dynamicRate, mixRate, fiveMsFrames, replies) == Step(ctl, [])
  {
  }

  /** A pending reset is applied first: the update opens by rebuilding the resampler
      for the deferred rate. */
  lemma MidUpdateResetFirst(ctl: Control, kind: VoiceKind, dynamicRate: bool, mixRate: real,
                            fiveMsFrames: nat, replies: Replies)
    requires ctl.resetPending
    ensures var e := MidUpdateStep(ctl, kind, dynamicRate, mixRate, fiveMsFrames, replies).events;
      |e| >= 2 && e[0] == ResamplerDelete
      && e[1] == ResamplerCreate(ctl.deferredRate, mixRate, Channels(kind), dynamicRate)
  {
  }

  /** Without dynamic rate the resampler's ratio is never touched. */
  lemma StaticRateKeepsRatio(ctl: Control, kind: VoiceKind, mixRate: real,
                             fiveMsFrames: nat, replies: Replies)
    ensures forall e | e in MidUpdateStep(ctl, kind, false, mixRate, fiveMsFrames, replies).events
      :: !e.SetIoRatio?
  {
  }

  /** With dynamic rate, a pending pitch change alone sets the io ratio from the stored
      ratio and the current rates, slewed over 5 ms or not at all. */
  lemma PitchChangeIoRatio(ctl: Control, kind: VoiceKind, mixRate: real,
                           fiveMsFrames: nat, replies: Replies)
    requires ctl.pitchPending && !ctl.resetPending
    ensures var e := MidUpdateStep(ctl, kind, true, mixRate, fiveMsFrames, replies).events;
      |e| >= 1
      && e[0] == SetIoRatio(ctl.pitchRatio, ctl.rateIn, ctl.rateOut, if ctl.slew then fiveMsFrames else 0)
  {
  }

  /** A successful reset applies the stored ratio against the new rates without slew,
      so a slew requested together with the reset is not applied. */
  lemma ResetAppliesRatioUnslewed(ctl: Control, kind: VoiceKind, mixRate: real,
                                  fiveMsFrames: nat, replies: Replies)
    requires ctl.resetPending && !CreateFailed(kind, replies)
    ensures var e := MidUpdateStep(ctl, kind, true, mixRate, fiveMsFrames, replies).events;
      |e| >= 4 && e[2] == InputFnSet
      && e[3] == SetIoRatio(ctl.pitchRatio, ctl.deferredRate, mixRate, 0)
  {
  }

  /** One deferred update sets the io ratio at most once. */
  lemma MidUpdateSetsRatioAtMostOnce(ctl: Control, kind: VoiceKind, dynamicRate: bool, mixRate: real,
                                     fiveMsFrames: nat, replies: Replies)
    ensures var e := MidUpdateStep(ctl, kind, dynamicRate, mixRate, fiveMsFrames, replies).events;
      forall i, j | 0 <= i < |e| && 0 <= j < |e| && e[i].SetIoRatio? && e[j].SetIoRatio? :: i == j
  {
  }

  // ---------------------------------------------------------------------------
  // Scratch buffers

  /** std::vector::resize to a larger size: the contents are kept and the new tail is
      value-initialised. */
  function Resized<T>(s: seq<T>, size: nat, zero: T): (r: seq<T>)
    requires |s| <= size
    ensures |r| == size && r[..|s|] == s
    ensures forall i | |s| <= i < size :: r[i] == zero
  {
    s + seq(size - |s|, _ => zero)
  }

  /** The grow-only rule every scratch buffer follows: when shorter than `need`, it is
      resized to `need + pad`; otherwise it is left as it is. */
  function Grown<T>(s: seq<T>, need: nat, pad: nat, zero: T): (r: seq<T>)
    ensures need <= |r| && |s| <= |r| && r[..|s|] == s
    ensures |s| < need ==> |r| == need + pad
    ensures need <= |s| ==> r == s
  {
    if |s| < need then Resized(s, need + pad, zero) else s
  }

  /** Growing twice for the same need is growing once. */
  lemma GrownIdempotent<T>(s: seq<T>, need: nat, pad: nat, zero: T)
    ensures Grown(Grown(s, need, pad, zero), need, pad, zero) == Grown(s, need, pad, zero)
  {
  }

  // ---------------------------------------------------------------------------
  // Input pulls

  /** One request soxr_output makes through SRCCallback: the frames it asks for, and
      what the client's supplyAudio answers when the voice is not silent. */
  datatype Pull = Pull(frames: nat, supplied: nat)

  /** What SRCCallback answers a pull: the frames asked for when the voice is silent,
      the client's count otherwise. */
  function Answer(p: Pull, silent: bool): nat
  {
    if silent then p.frames else p.supplied
  }

  /** The shared input scratch after one pull of `need` samples: grown to hold them, and
      for a silent voice with exactly those samples zeroed. */
  function PulledIn(s: seq<Int16>, need: nat, silent: bool): (r: seq<Int16>)
    ensures |r| == |Grown(s, need, 0, 0 as Int16)|
    ensures silent ==> (forall i | 0 <= i < need :: r[i] == 0) && r[need..] == Grown(s, need, 0, 0 as Int16)[need..]
    ensures !silent ==> r == Grown(s, need, 0, 0 as Int16)
  {
    var g := Grown(s, need, 0, 0 as Int16);
    if silent then seq(need, _ => 0 as Int16) + g[need..] else g
  }

  /** The input scratch after a run of pulls, in order. */
  function PullsIn(s: seq<Int16>, pulls: seq<Pull>, channels: nat, silent: bool): seq<Int16>
  {
    if pulls == [] then s
    else
      var last := pulls[|pulls| - 1];
      PulledIn(PullsIn(s, pulls[..|pulls| - 1], channels, silent), last.frames * channels, silent)
  }

  /** A run of pulls leaves the input scratch large enough for every one of them and
      never shrinks it. A client voice keeps the old contents; a silent voice has the
      last pull's samples zeroed. */
  lemma {:induction false} PullsInHolds(s: seq<Int16>, pulls: seq<Pull>, channels: nat, silent: bool)
    ensures var r := PullsIn(s, pulls, channels, silent);
      && |s| <= |r|
      && (forall i | 0 <= i < |pulls| :: pulls[i].frames * channels <= |r|)
      && (!silent ==> r[..|s|] == s)
      && (silent && pulls != [] ==> forall k | 0 <= k < pulls[|pulls| - 1].frames * channels :: r[k] == 0)
  {
    if pulls != [] {
      var init := pulls[..|pulls| - 1];
      var prev := PullsIn(s, init, channels, silent);
      PullsInHolds(s, init, channels, silent);
      var r := PullsIn(s, pulls, channels, silent);
      forall i | 0 <= i < |pulls|
        ensures pulls[i].frames * channels <= |r|
      {
        if i < |pulls| - 1 {
          assert pulls[i] == init[i];
        }
      }
      if !silent {
        assert r[..|prev|] == prev;
        assert r[..|s|] == r[..|prev|][..|s|];
      }
    }
  }

  /** The client calls a run of pulls makes: none for a silent voice, otherwise one
      supplyAudio per pull, in order. */
  function PullEvents(pulls: seq<Pull>, silent: bool): (r: seq<Event>)
    ensures silent ==> r == []
    ensures !silent ==> |r| == |pulls| && forall i | 0 <= i < |pulls| :: r[i] == SupplyAudio(pulls[i].frames)
  {
    if silent || pulls == [] then []
    else PullEvents(pulls[..|pulls| - 1], silent) + [SupplyAudio(pulls[|pulls| - 1].frames)]
  }

  /** What SRCCallback answers a run of pulls, one count per pull. */
  function PullAnswers(pulls: seq<Pull>, silent: bool): (r: seq<nat>)
    ensures |r| == |pulls|
    ensures forall i | 0 <= i < |pulls| :: r[i] == Answer(pulls[i], silent)
  {
    if pulls == [] then []
    else PullAnswers(pulls[..|pulls| - 1], silent) + [Answer(pulls[|pulls| - 1], silent)]
  }

  /** One more pull extends the scratch, the calls and the answers by that pull's own
      effect. */
  lemma PullsSnoc(s: seq<Int16>, pulls: seq<Pull>, i: nat, channels: nat, silent: bool)
    requires i < |pulls|
    ensures PullsIn(s, pulls[..i + 1], channels, silent)
            == PulledIn(PullsIn(s, pulls[..i], channels, silent), pulls[i].frames * channels, silent)
    ensures PullEvents(pulls[..i + 1], silent)
            == PullEvents(pulls[..i], silent) + (if silent then [] else [SupplyAudio(pulls[i].frames)])
    ensures PullAnswers(pulls[..i + 1], silent) == PullAnswers(pulls[..i], silent) + [Answer(pulls[i], silent)]
  {
    assert pulls[..i + 1][..i] == pulls[..i];
  }

  // ---------------------------------------------------------------------------
  // Channel levels

  /** A mono gain column broadcast to both columns of a stereo matrix. */
  function BroadcastMono(coefs: seq<real>): (r: seq<(real, real)>)
    ensures |r| == |coefs|
    ensures forall i | 0 <= i < |r| :: r[i].0 == coefs[i] && r[i].1 == coefs[i]
  {
    seq(|coefs|, i requires 0 <= i < |coefs| => (coefs[i], coefs[i]))
  }

  /** Column 0 of a stereo gain table, for a mono matrix. */
  function LeftColumn(coefs: seq<(real, real)>): (r: seq<real>)
    ensures |r| == |coefs|
    ensures forall i | 0 <= i < |r| :: r[i] == coefs[i].0
  {
    seq(|coefs|, i requires 0 <= i < |coefs| => coefs[i].0)
  }

  /** Taking column 0 of a broadcast gives the mono gains back. */
  lemma LeftColumnOfBroadcast(coefs: seq<real>)
    ensures LeftColumn(BroadcastMono(coefs)) == coefs
  {
  }

  /** A null submix means the main submix. */
  function TargetSubmix(submix: Option<SubmixId>, mainSubmix: SubmixId): (r: SubmixId)
    ensures submix.Some? ==> r == submix.value
    ensures submix.None? ==> r == mainSubmix
  {
    if submix.None? then mainSubmix else submix.value
  }

  /** A mono voice holds mono matrices, a stereo voice stereo ones, eight rows each. */
  ghost predicate GainsFit(kind: VoiceKind, g: Gains)
  {
    if kind == Mono then g.MonoGains? && |g.column| == 8 else g.StereoGains? && |g.rows| == 8
  }

  // ---------------------------------------------------------------------------
  // Routing

  /** `order` lists every key of the send map exactly once. */
  ghost predicate Enumerates(order: seq<SubmixId>, keys: set<SubmixId>)
  {
    && (forall i, j | 0 <= i < j < |order| :: order[i] != order[j])
    && (forall s :: s in keys <==> s in order)
  }

  /** The calls of the send loop: one routeAudio and one matrix mix per send, in `order`. */
  function SendRoutes(order: seq<SubmixId>, sends: map<SubmixId, SendMatrix>, format: SampleFormat,
                      frames: nat, channels: nat): seq<Event>
    requires forall s | s in order :: s in sends
  {
    if order == [] then []
    else
      [Route(frames, channels, order[0]), Mix(order[0], format, frames, channels, Send(sends[order[0]]))]
      + SendRoutes(order[1..], sends, format, frames, channels)
  }

  /** The submixes the mix calls of a log write into, in order. */
  function MixTargets(events: seq<Event>): seq<SubmixId>
  {
    if events == [] then []
    else (if events[0].Mix? then [events[0].submix] else []) + MixTargets(events[1..])
  }

  /** The submixes the route calls of a log name, in order. */
  function RouteTargets(events: seq<Event>): seq<SubmixId>
  {
    if events == [] then []
    else (if events[0].Route? then [events[0].submix] else []) + RouteTargets(events[1..])
  }

  lemma {:induction false} MixTargetsAppend(a: seq<Event>, b: seq<Event>)
    ensures MixTargets(a + b) == MixTargets(a) + MixTargets(b)
  {
    if a == [] {
      assert a + b == b;
    } else {
      assert (a + b)[0] == a[0];
      assert (a + b)[1..] == a[1..] + b;
      MixTargetsAppend(a[1..], b);
    }
  }

  lemma {:induction false} RouteTargetsAppend(a: seq<Event>, b: seq<Event>)
    ensures RouteTargets(a + b) == RouteTargets(a) + RouteTargets(b)
  {
    if a == [] {
      assert a + b == b;
    } else {
      assert (a + b)[0] == a[0];
      assert (a + b)[1..] == a[1..] + b;
      RouteTargetsAppend(a[1..], b);
    }
  }

  /** One more send appends its route and its mix. */
  lemma {:induction false} SendRoutesSnoc(order: seq<SubmixId>, s: SubmixId, sends: map<SubmixId, SendMatrix>,
                                          format: SampleFormat, frames: nat, channels: nat)
    requires forall t | t in order :: t in sends
    requires s in sends
    ensures SendRoutes(order + [s], sends, format, frames, channels)
         == SendRoutes(order, sends, format, frames, channels)
            + [Route(frames, channels, s), Mix(s, format, frames, channels, Send(sends[s]))]
  {
    if order != [] {
      assert (order + [s])[1..] == order[1..] + [s];
      SendRoutesSnoc(order[1..], s, sends, format, frames, channels);
    }
  }

  /** The send loop makes one routeAudio and one mix call per send, in the same order,
      each mix with the send's own matrix, and no other call. */
  lemma {:induction false} SendRoutesAt(order: seq<SubmixId>, sends: map<SubmixId, SendMatrix>,
                                        format: SampleFormat, frames: nat, channels: nat)
    requires forall s | s in order :: s in sends
    ensures var e := SendRoutes(order, sends, format, frames, channels);
      && |e| == 2 * |order|
      && (forall i | 0 <= i < |order| ::
            e[2 * i] == Route(frames, channels, order[i])
            && e[2 * i + 1] == Mix(order[i], format, frames, channels, Send(sends[order[i]])))
  {
    if order != [] {
      var rest := SendRoutes(order[1..], sends, format, frames, channels);
      SendRoutesAt(order[1..], sends, format, frames, channels);
      var e := SendRoutes(order, sends, format, frames, channels);
      forall i | 0 <= i < |order|
        ensures e[2 * i] == Route(frames, channels, order[i])
        ensures e[2 * i + 1] == Mix(order[i], format, frames, channels, Send(sends[order[i]]))
      {
        if i > 0 {
          assert e[2 * i] == rest[2 * (i - 1)];
          assert e[2 * i + 1] == rest[2 * (i - 1) + 1];
          assert order[1..][i - 1] == order[i];
        }
      }
    }
  }

  /** The submixes mixed into, and those routed for, are exactly the visited sends in
      visiting order: with `Enumerates`, each send is mixed into exactly once. */
  lemma {:induction false} SendRoutesTargets(order: seq<SubmixId>, sends: map<SubmixId, SendMatrix>,
                                             format: SampleFormat, frames: nat, channels: nat)
    requires forall s | s in order :: s in sends
    ensures MixTargets(SendRoutes(order, sends, format, frames, channels)) == order
    ensures RouteTargets(SendRoutes(order, sends, format, frames, channels)) == order
  {
    if order != [] {
      var rest := SendRoutes(order[1..], sends, format, frames, channels);
      var head := [Route(frames, channels, order[0]), Mix(order[0], format, frames, channels, Send(sends[order[0]]))];
      SendRoutesTargets(order[1..], sends, format, frames, channels);
      MixTargetsAppend(head, rest);
      RouteTargetsAppend(head, rest);
      assert head[1..][1..] == [];
      assert MixTargets(head) == [order[0]];
      assert RouteTargets(head) == [order[0]];
      assert order == [order[0]] + order[1..];
    }
  }

  // ---------------------------------------------------------------------------
  // The engine-side state a voice uses

  /** The parts of the voice engine a voice reads and writes: the mix rate, the 5 ms
      slew length, the main submix, the submix-graph dirty flag and the scratch
      buffers shared by all voices. */
  class VoiceEngine {
    const mixRate: real
    const fiveMsFrames: nat
    const mainSubmix: SubmixId
    var submixesDirty: bool
    var scratchIn: seq<Int16>
    var scratch16Pre: seq<Int16>
    var scratch16Post: seq<Int16>
    var scratch32Pre: seq<Int32>
    var scratch32Post: seq<Int32>
    var scratchFltPre: seq<real>
    var scratchFltPost: seq<real>

    constructor (mixRate: real, fiveMsFrames: nat, mainSubmix: SubmixId)
      ensures this.mixRate == mixRate && this.fiveMsFrames == fiveMsFrames && this.mainSubmix == mainSubmix
      ensures !submixesDirty && scratchIn == []
      ensures scratch16Pre == [] && scratch16Post == [] && scratch32Pre == [] && scratch32Post == []
      ensures scratchFltPre == [] && scratchFltPost == []
    {
      this.mixRate := mixRate;
      this.fiveMsFrames := fiveMsFrames;
      this.mainSubmix := mainSubmix;
      submixesDirty := false;
      scratchIn := [];
      scratch16Pre, scratch16Post := [], [];
      scratch32Pre, scratch32Post := [], [];
      scratchFltPre, scratchFltPost := [], [];
    }

    /** The scratch pair of `format` has grown to hold `samples` samples (the float pair
        with `floatPad` spare samples when it grows) and the other pairs are unchanged. */
    twostate predicate ScratchGrown(format: SampleFormat, samples: nat, floatPad: nat)
      reads this
    {
      && (if format == Int16Samples then
            scratch16Pre == Grown(old(scratch16Pre), samples, 0, 0)
            && scratch16Post == Grown(old(scratch16Post), samples, 0, 0)
          else scratch16Pre == old(scratch16Pre) && scratch16Post == old(scratch16Post))
      && (if format == Int32Samples then
            scratch32Pre == Grown(old(scratch32Pre), samples, 0, 0)
            && scratch32Post == Grown(old(scratch32Post), samples, 0, 0)
          else scratch32Pre == old(scratch32Pre) && scratch32Post == old(scratch32Post))
      && (if format == FloatSamples then
            scratchFltPre == Grown(old(scratchFltPre), samples, floatPad, 0.0)
            && scratchFltPost == Grown(old(scratchFltPost), samples, floatPad, 0.0)
          else scratchFltPre == old(scratchFltPre) && scratchFltPost == old(scratchFltPost))
    }

    /** The opening of every pump: the pre and post scratch of the pump's format grow to
        the period's sample count; the float pair is resized with spare room. */
    method GrowScratch(format: SampleFormat, samples: nat, floatPad: nat)
      modifies this`scratch16Pre, this`scratch16Post, this`scratch32Pre, this`scratch32Post,
               this`scratchFltPre, this`scratchFltPost
      ensures ScratchGrown(format, samples, floatPad)
    {
      match format {
        case Int16Samples =>
          if |scratch16Pre| < samples { scratch16Pre := Resized(scratch16Pre, samples, 0); }
          if |scratch16Post| < samples { scratch16Post := Resized(scratch16Post, samples, 0); }
        case Int32Samples =>
          if |scratch32Pre| < samples { scratch32Pre := Resized(scratch32Pre, samples, 0); }
          if |scratch32Post| < samples { scratch32Post := Resized(scratch32Post, samples, 0); }
        case FloatSamples =>
          if |scratchFltPre| < samples { scratchFltPre := Resized(scratchFltPre, samples + floatPad, 0.0); }
          if |scratchFltPost| < samples { scratchFltPost := Resized(scratchFltPost, samples + floatPad, 0.0); }
      }
    }
  }

  /** The control fields a voice starts with, before its constructor rebuilds the
      resampler. */
  const InitialControl := Control(false, 1.0, false, false, 0.0, 0.0, 0.0)

  // ---------------------------------------------------------------------------
  // The voice

  class Voice {
    const root: VoiceEngine
    const kind: VoiceKind
    const dynamicRate: bool
    /** The rate-control fields, kept together (see Control). */
    var ctl: Control
    var running: bool
    var bound: bool
    var silentOut: bool
    var sends: map<SubmixId, SendMatrix>
    ghost var events: seq<Event>
    /** How many times the engine's _unbindFrom has been called for this voice. */
    ghost var unbindCalls: nat

    /** Every matrix fits the voice's channel count, and the engine's unbinding has been
        called at most once, and never while the voice is still bound. */
    ghost predicate Valid()
      reads this
    {
      && (forall s | s in sends :: GainsFit(kind, sends[s].gains))
      && unbindCalls <= 1
      && (bound ==> unbindCalls == 0)
    }

    /** AudioVoiceMono / AudioVoiceStereo: the resampler is built at once for
        `sampleRate`. `registered` is whether the engine has entered the voice in its
        list (the engine's factory is not part of this model), and `silent` the
        m_silentOut flag, which the voice only reads. */
    constructor (root: VoiceEngine, kind: VoiceKind, sampleRate: real, dynamicRate: bool,
                 registered: bool, silent: bool, replies: Replies)
      ensures Valid()
      ensures this.root == root && this.kind == kind && this.dynamicRate == dynamicRate
      ensures ctl == SampleRateStep(InitialControl, kind, dynamicRate, sampleRate,
                                      root.mixRate, root.fiveMsFrames, replies).ctl
      ensures events == SampleRateStep(InitialControl, kind, dynamicRate, sampleRate,
                                       root.mixRate, root.fiveMsFrames, replies).events
      ensures bound == registered && silentOut == silent && !running && sends == map[] && unbindCalls == 0
    {
      this.root := root;
      this.kind := kind;
      this.dynamicRate := dynamicRate;
      ctl := InitialControl;
      running, bound, silentOut := false, registered, silent;
      sends := map[];
      events := [];
      unbindCalls := 0;
      new;
      ApplySampleRate(sampleRate, replies);
    }

    /** _setPitchRatio */
    method ApplyPitchRatio(ratio: real, slew: bool, err: bool)
      requires Valid()
      modifies this`ctl, this`events
      ensures Valid()
      ensures ctl == PitchRatioStep(old(ctl), dynamicRate, ratio, slew, root.fiveMsFrames, err).ctl
      ensures events == old(events) + PitchRatioStep(old(ctl), dynamicRate, ratio, slew, root.fiveMsFrames, err).events
    {
      if dynamicRate {
        events := events + [SetIoRatio(ratio, ctl.rateIn, ctl.rateOut, if slew then root.fiveMsFrames else 0)];
        if err {
          events := events + [FatalReport];
          ctl := ctl.(pitchPending := false);
          return;
        }
      }
      ctl := ctl.(pitchPending := false);
    }

    /** _resetSampleRate */
    method ApplySampleRate(rate: real, replies: Replies)
      requires Valid()
      modifies this`ctl, this`events
      ensures Valid()
      ensures ctl == SampleRateStep(old(ctl), kind, dynamicRate, rate, root.mixRate, root.fiveMsFrames, replies).ctl
      ensures events == old(events)
              + SampleRateStep(old(ctl), kind, dynamicRate, rate, root.mixRate, root.fiveMsFrames, replies).events
    {
      ghost var before := events;
      var rebuild := [ResamplerDelete, ResamplerCreate(rate, root.mixRate, Channels(kind), dynamicRate)];
      events := events + rebuild;
      var failed := CreateFailed(kind, replies);
      if failed {
        events := events + [FatalReport];
        ctl := ctl.(resetPending := false);
        assert events == before + (rebuild + [FatalReport]);
        return;
      }
      ctl := ctl.(rateIn := rate, rateOut := root.mixRate);
      events := events + [InputFnSet];
      ghost var p := PitchRatioStep(ctl, dynamicRate, ctl.pitchRatio, false, root.fiveMsFrames, replies.ratioErr);
      ApplyPitchRatio(ctl.pitchRatio, false, replies.ratioErr);
      ctl := ctl.(resetPending := false);
      assert events == before + (rebuild + [InputFnSet] + p.events);
    }

    /** _midUpdate */
    method MidUpdate(replies: Replies)
      requires Valid()
      modifies this`ctl, this`events
      ensures Valid()
      ensures ctl == MidUpdateStep(old(ctl), kind, dynamicRate, root.mixRate, root.fiveMsFrames, replies).ctl
      ensures events == old(events)
              + MidUpdateStep(old(ctl), kind, dynamicRate, root.mixRate, root.fiveMsFrames, replies).events
    {
      if ctl.resetPending {
        ApplySampleRate(ctl.deferredRate, replies);
      }
      if ctl.pitchPending {
        ApplyPitchRatio(ctl.pitchRatio, ctl.slew, replies.ratioErr);
      }
    }

    /** setPitchRatio: only records the request; the resampler is not called. */
    method SetPitchRatio(ratio: real, slew: bool)
      requires Valid()
      modifies this`ctl
      ensures Valid()
      ensures ctl == old(ctl).(pitchPending := true, pitchRatio := ratio, slew := slew)
    {
      ctl := ctl.(pitchPending := true, pitchRatio := ratio, slew := slew);
    }

    /** resetSampleRate: only records the request; the resampler is not called. */
    method ResetSampleRate(sampleRate: real)
      requires Valid()
      modifies this`ctl
      ensures Valid()
      ensures ctl == old(ctl).(resetPending := true, deferredRate := sampleRate)
    {
      ctl := ctl.(resetPending := true, deferredRate := sampleRate);
    }

    method Start()
      requires Valid()
      modifies this`running
      ensures Valid() && running
    {
      running := true;
    }

    method Stop()
      requires Valid()
      modifies this`running
      ensures Valid() && !running
    {
      running := false;
    }

    /** unbindVoice: the engine's unbinding runs only while bound, so at most once over
        the voice's life (see Valid). */
    method UnbindVoice()
      requires Valid()
      modifies this`bound, this`unbindCalls, this`events
      ensures Valid() && !bound
      ensures unbindCalls == old(unbindCalls) + (if old(bound) then 1 else 0)
      ensures events == old(events) + (if old(bound) then [EngineUnbind] else [])
    {
      if bound {
        unbindCalls := unbindCalls + 1;
        events := events + [EngineUnbind];
        bound := false;
      }
    }

    /** ~AudioVoice: unbind, then release the resampler. */
    method Destroy()
      requires Valid()
      modifies this`bound, this`unbindCalls, this`events
      ensures Valid() && !bound
      ensures unbindCalls == old(unbindCalls) + (if old(bound) then 1 else 0)
      ensures events == old(events) + (if old(bound) then [EngineUnbind] else []) + [ResamplerDelete]
    {
      UnbindVoice();
      events := events + [ResamplerDelete];
    }

    /** SRCCallback: the resampler's request for `frames` dry frames. The shared input
        scratch grows to hold them; a silent voice zero-fills exactly that many samples
        and answers `frames` without asking the client, otherwise the client's answer
        `supplied` is returned. The client's writes into the buffer are not modelled. */
    method SrcCallback(frames: nat, supplied: nat) returns (r: nat)
      requires Valid()
      modifies root`scratchIn, this`events
      ensures Valid()
      ensures root.scratchIn == PulledIn(old(root.scratchIn), frames * Channels(kind), silentOut)
      ensures var need := frames * Channels(kind);
        var grown := Grown(old(root.scratchIn), need, 0, 0 as Int16);
        if silentOut then
          && r == frames && events == old(events)
          && |root.scratchIn| == |grown| && root.scratchIn[need..] == grown[need..]
          && (forall i | 0 <= i < need :: root.scratchIn[i] == 0)
        else
          r == supplied && events == old(events) + [SupplyAudio(frames)] && root.scratchIn == grown
    {
      var samples := frames * Channels(kind);
      if |root.scratchIn| < samples {
        root.scratchIn := Resized(root.scratchIn, samples, 0);
      }
      if silentOut {
        root.scratchIn := seq(samples, _ => 0 as Int16) + root.scratchIn[samples..];
        return frames;
      } else {
        events := events + [SupplyAudio(frames)];
        return supplied;
      }
    }

    /** The input pulls soxr_output makes through SRCCallback, in order, with the answer
        each one gets. */
    method SupplyPulls(pulls: seq<Pull>) returns (answers: seq<nat>)
      requires Valid()
      modifies root`scratchIn, this`events
      ensures Valid()
      ensures root.scratchIn == PullsIn(old(root.scratchIn), pulls, Channels(kind), silentOut)
      ensures events == old(events) + PullEvents(pulls, silentOut)
      ensures answers == PullAnswers(pulls, silentOut)
    {
      answers := [];
      for i := 0 to |pulls|
        invariant Valid()
        invariant root.scratchIn == PullsIn(old(root.scratchIn), pulls[..i], Channels(kind), silentOut)
        invariant events == old(events) + PullEvents(pulls[..i], silentOut)
        invariant answers == PullAnswers(pulls[..i], silentOut)
      {
        PullsSnoc(old(root.scratchIn), pulls, i, Channels(kind), silentOut);
        var a := SrcCallback(pulls[i].frames, pulls[i].supplied);
        answers := answers + [a];
      }
      assert pulls[..|pulls|] == pulls;
    }

    /** The routing half of a pump: nothing when no frame came out, otherwise one
        routeAudio and one mix per send, or, without sends, one of each into the main
        submix with the default matrix. The send map is visited in some order, given
        back as `order`. */
    method RouteOutput(format: SampleFormat, oDone: nat) returns (ghost order: seq<SubmixId>)
      requires Valid()
      modifies this`events
      ensures Valid()
      ensures var ch := Channels(kind);
        if oDone == 0 then events == old(events)
        else if |sends| == 0 then
          events == old(events) + [Route(oDone, ch, root.mainSubmix), Mix(root.mainSubmix, format, oDone, ch, DefaultMatrix)]
        else
          && Enumerates(order, sends.Keys)
          && events == old(events) + SendRoutes(order, sends, format, oDone, ch)
    {
      var ch := Channels(kind);
      order := [];
      if oDone > 0 {
        if |sends| > 0 {
          ghost var routed: seq<Event> := [];
          var remaining := sends.Keys;
          while remaining != {}
            invariant remaining <= sends.Keys
            invariant forall s | s in sends :: s in remaining <==> s !in order
            invariant forall s | s in order :: s in sends
            invariant forall i, j | 0 <= i < j < |order| :: order[i] != order[j]
            invariant routed == SendRoutes(order, sends, format, oDone, ch)
            invariant events == old(events)
            decreases |remaining|
          {
            var s :| s in remaining;
            routed := routed + [Route(oDone, ch, s), Mix(s, format, oDone, ch, Send(sends[s]))];
            SendRoutesSnoc(order, s, sends, format, oDone, ch);
            order := order + [s];
            remaining := remaining - {s};
          }
          assert Enumerates(order, sends.Keys);
          events := events + routed;
        } else {
          events := events + [Route(oDone, ch, root.mainSubmix), Mix(root.mainSubmix, format, oDone, ch, DefaultMatrix)];
        }
      }
    }

    /** pumpAndMix16 / pumpAndMix32 / pumpAndMixFlt. `replies` is what the resampler
        answers during the deferred update, `pulls` the input requests soxr_output makes
        through SRCCallback and `oDone` the frame count it answers. */
    method PumpAndMix(format: SampleFormat, frames: nat, replies: Replies, pulls: seq<Pull>, oDone: nat)
      returns (done: nat, ghost order: seq<SubmixId>)
      requires Valid()
      requires oDone <= frames
      modifies this`ctl, this`events, root`scratchIn, root`scratch16Pre, root`scratch16Post,
               root`scratch32Pre, root`scratch32Post, root`scratchFltPre, root`scratchFltPost
      ensures Valid()
      ensures done == oDone
      ensures root.ScratchGrown(format, frames * Channels(kind), 2 * Channels(kind))
      ensures root.scratchIn == PullsIn(old(root.scratchIn), pulls, Channels(kind), silentOut)
      ensures ctl == MidUpdateStep(old(ctl), kind, dynamicRate, root.mixRate, root.fiveMsFrames, replies).ctl
      ensures var prelude := old(events) + [PreSupply(frames)]
          + MidUpdateStep(old(ctl), kind, dynamicRate, root.mixRate, root.fiveMsFrames, replies).events
          + PullEvents(pulls, silentOut)
          + [Output(frames)];
        var ch := Channels(kind);
        if oDone == 0 then events == prelude
        else if |sends| == 0 then
          events == prelude + [Route(oDone, ch, root.mainSubmix), Mix(root.mainSubmix, format, oDone, ch, DefaultMatrix)]
        else
          && Enumerates(order, sends.Keys)
          && events == prelude + SendRoutes(order, sends, format, oDone, ch)
    {
      root.GrowScratch(format, frames * Channels(kind), 2 * Channels(kind));
      events := events + [PreSupply(frames)];
      MidUpdate(replies);
      var answers := SupplyPulls(pulls);
      events := events + [Output(frames)];
      order := RouteOutput(format, oDone);
      done := oDone;
    }

    /** resetChannelLevels: every send is dropped and the engine's submix graph is
        marked dirty; the new state does not depend on the old sends, so a second call
        changes nothing. */
    method ResetChannelLevels()
      requires Valid()
      modifies this`sends, root`submixesDirty
      ensures Valid()
      ensures sends == map[] && root.submixesDirty
    {
      root.submixesDirty := true;
      sends := map[];
    }

    /** setMonoChannelLevels: a null submix means the main submix; its entry is created on
        first use and then configured. A stereo voice copies each gain into both columns. */
    method SetMonoChannelLevels(submix: Option<SubmixId>, coefs: seq<real>, slew: bool)
      requires Valid()
      requires |coefs| == 8
      modifies this`sends
      ensures Valid()
      ensures var target := TargetSubmix(submix, root.mainSubmix);
        var gains := if kind == Mono then MonoGains(coefs) else StereoGains(BroadcastMono(coefs));
        && sends == old(sends)[target := SendMatrix(gains, if slew then root.fiveMsFrames else 0)]
        && sends.Keys == old(sends).Keys + {target}
    {
      var target := TargetSubmix(submix, root.mainSubmix);
      var gains := if kind == Mono then MonoGains(coefs) else StereoGains(BroadcastMono(coefs));
      sends := sends[target := SendMatrix(gains, if slew then root.fiveMsFrames else 0)];
    }

    /** setStereoChannelLevels: as above; a mono voice keeps column 0 of the table. */
    method SetStereoChannelLevels(submix: Option<SubmixId>, coefs: seq<(real, real)>, slew: bool)
      requires Valid()
      requires |coefs| == 8
      modifies this`sends
      ensures Valid()
      ensures var target := TargetSubmix(submix, root.mainSubmix);
        var gains := if kind == Mono then MonoGains(LeftColumn(coefs)) else StereoGains(coefs);
        && sends == old(sends)[target := SendMatrix(gains, if slew then root.fiveMsFrames else 0)]
        && sends.Keys == old(sends).Keys + {target}
    {
      var gains := if kind == Mono then MonoGains(LeftColumn(coefs)) else StereoGains(coefs);
      var target := TargetSubmix(submix, root.mainSubmix);
      sends := sends[target := SendMatrix(gains, if slew then root.fiveMsFrames else 0)];
    }
  }
}
