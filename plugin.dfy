/** The note handling of the plugin in `src/lib.rs`: `reset`, and the loop at the top of
    every sample of `process` that takes the host's note events due by that sample and
    applies them to the note and the envelope. A note-on always retunes; it restarts the
    envelope from an attack or a release, but during decay or sustain it only restarts
    the envelope's trigger timer. A note-off releases the envelope only for the note
    that is sounding. */
module Plugin {

  import opened Util
  import Envelope

  /** The host's note events, each with the sample it belongs to. Every other kind of
      event is `OtherEvent`, which the loop consumes and ignores. */
  datatype NoteEvent =
    | NoteOn(timing: nat, note: U8, velocity: real)
    | NoteOff(timing: nat, note: U8)
    | OtherEvent(timing: nat)

  /** The fields of `Toby` that `reset` and the event loop use. */
  datatype PluginState = PluginState(sampleRate: real, phase: real, note: U8, frequency: real,
                                     envelope: Envelope.EnvelopeState)

  /** `Default`: sample rate 1, phase 0, note 0 at frequency 1, the default envelope. */
  const DEFAULT_PLUGIN: PluginState := PluginState(1.0, 0.0, 0, 1.0, Envelope.DEFAULT_ENVELOPE)

  /** `reset`: phase, note and frequency back to their defaults and the envelope reset to
      idle; the sample rate stays. */
  function ResetPlugin(p: PluginState): (r: PluginState)
    ensures r.phase == 0.0 && r.note == 0 && r.frequency == 1.0 && r.sampleRate == p.sampleRate
    ensures r.envelope.stage == Envelope.EnvelopeStage.Idle && !Envelope.Active(r.envelope)
    ensures r.envelope.stepTimer == p.envelope.release && r.envelope.timer == 0.0
    ensures Envelope.SameParams(r.envelope, p.envelope)
  {
    p.(phase := 0.0, note := 0, frequency := 1.0, envelope := Envelope.ResetEnvelope(p.envelope))
  }

  /** Resetting twice is resetting once. */
  lemma ResetIdempotent(p: PluginState)
    ensures ResetPlugin(ResetPlugin(p)) == ResetPlugin(p)
  {
  }

  // ---------------------------------------------------------------- note-on

  /** The envelope after a note-on, as the stage match in `process` is written: it has
      arms for attack, release, decay and sustain and none for idle, so a note-on on an
      idle envelope has no outcome. With no wildcard either, rustc rejects the match as
      non-exhaustive, so `None` stands for the arm the code lacks. */
  function NoteOnEnvelopeAsWritten(e: Envelope.EnvelopeState): (r: Option<Envelope.EnvelopeState>)
    ensures r.None? <==> e.stage == Envelope.EnvelopeStage.Idle
    // from an attack or a release: a full retrigger
    ensures (e.stage == Envelope.EnvelopeStage.Attack || e.stage == Envelope.EnvelopeStage.Release) ==>
      r.Some? && r.value.stage == Envelope.EnvelopeStage.Attack &&
      r.value.stepTimer == 0.0 && r.value.timer == 0.0 && Envelope.SameParams(r.value, e)
    // in a decay or a sustain: only the trigger timer restarts
    ensures (e.stage == Envelope.EnvelopeStage.Decay || e.stage == Envelope.EnvelopeStage.Sustain) ==>
      r.Some? && r.value.stage == e.stage && r.value.stepTimer == e.stepTimer &&
      r.value.timer == 0.0 && Envelope.SameParams(r.value, e)
  {
    match e.stage
    case Attack | Release => Some(Envelope.TriggerEnvelope(e, Envelope.EnvelopeEvent.Attack))
    case Decay | Sustain => Some(e.(timer := 0.0))
    case Idle => None
  }

  /** The first note after `Default` or `reset` meets an idle envelope, which the match
      does not handle. */
  lemma FirstNoteIsUnhandled(p: PluginState)
    ensures NoteOnEnvelopeAsWritten(DEFAULT_PLUGIN.envelope).None?
    ensures NoteOnEnvelopeAsWritten(ResetPlugin(p).envelope).None?
  {
  }

  /** The envelope after a note-on with the idle case handled like an attack or a
      release: a full retrigger, so that every note-on leaves the envelope sounding. */
  function NoteOnEnvelope(e: Envelope.EnvelopeState): (r: Envelope.EnvelopeState)
    ensures Envelope.Active(r) && Envelope.SameParams(r, e) && r.timer == 0.0
    ensures e.stage !in {Envelope.EnvelopeStage.Decay, Envelope.EnvelopeStage.Sustain} ==>
      r.stage == Envelope.EnvelopeStage.Attack && r.stepTimer == 0.0
    ensures e.stage in {Envelope.EnvelopeStage.Decay, Envelope.EnvelopeStage.Sustain} ==>
      r.stage == e.stage && r.stepTimer == e.stepTimer
  {
    match e.stage
    case Decay | Sustain => e.(timer := 0.0)
    case Attack | Release | Idle => Envelope.TriggerEnvelope(e, Envelope.EnvelopeEvent.Attack)
  }

  /** The correction changes nothing where the written match has an arm. */
  lemma NoteOnCorrectionAgrees(e: Envelope.EnvelopeState)
    ensures NoteOnEnvelopeAsWritten(e).Some? ==> NoteOnEnvelope(e) == NoteOnEnvelopeAsWritten(e).value
  {
  }

  // ---------------------------------------------------------------- one event

  /** One event of the loop. */
  function Handled(p: PluginState, event: NoteEvent, noteToFreq: U8 -> real): PluginState
  {
    match event
    case NoteOn(_, note, _) =>
      p.(note := note, frequency := noteToFreq(note), envelope := NoteOnEnvelope(p.envelope))
    case NoteOff(_, note) =>
      if note == p.note then p.(envelope := Envelope.TriggerEnvelope(p.envelope, Envelope.EnvelopeEvent.Release))
      else p
    case OtherEvent(_) => p
  }

  /** What one event does: a note-on retunes and leaves the envelope sounding, a note-off
      releases only the sounding note, and nothing touches the phase or the sample rate. */
  lemma HandledEffects(p: PluginState, event: NoteEvent, noteToFreq: U8 -> real)
    ensures var r := Handled(p, event, noteToFreq);
      && r.sampleRate == p.sampleRate && r.phase == p.phase
      // a note-on retunes to its note and leaves the envelope sounding
      && (event.NoteOn? ==>
            r.note == event.note && r.frequency == noteToFreq(event.note) &&
            r.envelope == NoteOnEnvelope(p.envelope) && Envelope.Active(r.envelope))
      // a note-off for the sounding note releases it and keeps the note
      && (event.NoteOff? && event.note == p.note ==>
            r.note == p.note && r.frequency == p.frequency &&
            r.envelope.stage == Envelope.EnvelopeStage.Release &&
            r.envelope.stepTimer == 0.0 && r.envelope.timer == 0.0 &&
            Envelope.SameParams(r.envelope, p.envelope))
      // a note-off for another note, and every other event, changes nothing
      && ((event.NoteOff? && event.note != p.note) || event.OtherEvent? ==> r == p)
  {
  }

  /** Note-on then note-off of the same note: the envelope is released. */
  lemma NoteOnThenOffReleases(p: PluginState, timing: nat, note: U8, velocity: real, later: nat,
                              noteToFreq: U8 -> real)
    ensures var q := Handled(Handled(p, NoteOn(timing, note, velocity), noteToFreq), NoteOff(later, note), noteToFreq);
      q.note == note && q.envelope.stage == Envelope.EnvelopeStage.Release
  {
  }

  /** A note-off for an older note cannot cut the note that replaced it. */
  lemma StaleNoteOffIgnored(p: PluginState, timing: nat, note: U8, velocity: real, later: nat, old_note: U8,
                            noteToFreq: U8 -> real)
    requires old_note != note
    ensures var q := Handled(p, NoteOn(timing, note, velocity), noteToFreq);
      Handled(q, NoteOff(later, old_note), noteToFreq) == q && Envelope.Active(q.envelope)
  {
  }

  /** The events applied in order. */
  function HandledAll(p: PluginState, events: seq<NoteEvent>, noteToFreq: U8 -> real): PluginState
    decreases |events|
  {
    if |events| == 0 then p
    else Handled(HandledAll(p, events[..|events| - 1], noteToFreq), events[|events| - 1], noteToFreq)
  }

  /** Applying two runs of events one after the other is applying their concatenation. */
  lemma {:induction false} HandledAllAppend(p: PluginState, a: seq<NoteEvent>, b: seq<NoteEvent>,
                                            noteToFreq: U8 -> real)
    ensures HandledAll(HandledAll(p, a, noteToFreq), b, noteToFreq) == HandledAll(p, a + b, noteToFreq)
    decreases |b|
  {
    if |b| == 0 {
      assert a + b == a;
    } else {
      var b' := b[..|b| - 1];
      HandledAllAppend(p, a, b', noteToFreq);
      assert (a + b)[..|a + b| - 1] == a + b';
      assert (a + b)[|a + b| - 1] == b[|b| - 1];
    }
  }

  // ---------------------------------------------------------------- the timing gate

  /** The position of the first event from `i` on that belongs to a later sample, or
      the end: the loop takes every event before it. */
  function DueFrom(events: seq<NoteEvent>, sampleId: nat, i: nat): (n: nat)
    requires i <= |events|
    ensures i <= n <= |events|
    decreases |events| - i
  {
    if i == |events| || events[i].timing > sampleId then i
    else DueFrom(events, sampleId, i + 1)
  }

  /** How many leading events are due by a sample. */
  function Due(events: seq<NoteEvent>, sampleId: nat): (n: nat)
    ensures n <= |events|
  {
    DueFrom(events, sampleId, 0)
  }

  /** Every event `DueFrom` passes over is due, and the one it stops at, if any, is not. */
  lemma {:induction false} DueFromStopsAtFirstLate(events: seq<NoteEvent>, sampleId: nat, i: nat)
    requires i <= |events|
    ensures var n := DueFrom(events, sampleId, i);
      (forall k :: i <= k < n ==> events[k].timing <= sampleId) &&
      (n < |events| ==> events[n].timing > sampleId)
    decreases |events| - i
  {
    if i < |events| && events[i].timing <= sampleId {
      DueFromStopsAtFirstLate(events, sampleId, i + 1);
    }
  }

  /** The loop takes exactly the due events before the first late one. */
  lemma DueStopsAtFirstLate(events: seq<NoteEvent>, sampleId: nat)
    ensures var n := Due(events, sampleId);
      (forall k :: 0 <= k < n ==> events[k].timing <= sampleId) &&
      (n < |events| ==> events[n].timing > sampleId)
  {
    DueFromStopsAtFirstLate(events, sampleId, 0);
  }

  /** The first late event is the only place a run of due events can end: a position
      with only due events from `i` up to it and a late event (or the end) at it is
      where `DueFrom` stops. */
  lemma {:induction false} DueFromIsFirstLate(events: seq<NoteEvent>, sampleId: nat, i: nat, j: nat)
    requires i <= j <= |events|
    requires forall k :: i <= k < j ==> events[k].timing <= sampleId
    requires j < |events| ==> events[j].timing > sampleId
    ensures DueFrom(events, sampleId, i) == j
    decreases j - i
  {
    if i < j {
      assert events[i].timing <= sampleId;
      DueFromIsFirstLate(events, sampleId, i + 1, j);
    }
  }

  lemma DueIsFirstLate(events: seq<NoteEvent>, sampleId: nat, i: nat)
    requires i <= |events|
    requires forall k :: 0 <= k < i ==> events[k].timing <= sampleId
    requires i < |events| ==> events[i].timing > sampleId
    ensures Due(events, sampleId) == i
  {
    DueFromIsFirstLate(events, sampleId, 0, i);
  }

  /** The gate only opens wider as the sample index grows, and what a later sample takes
      is what the earlier left pending and is due by then. */
  lemma {:induction false} DueSplits(events: seq<NoteEvent>, s: nat, t: nat)
    requires s <= t
    ensures Due(events, s) <= Due(events, t)
    ensures Due(events, t) == Due(events, s) + Due(events[Due(events, s)..], t)
  {
    var a := Due(events, s);
    var rest := events[a..];
    var b := Due(rest, t);
    DueStopsAtFirstLate(events, s);
    DueStopsAtFirstLate(rest, t);
    forall k | 0 <= k < a + b
      ensures events[k].timing <= t
    {
      if k >= a {
        assert events[k] == rest[k - a];
      }
    }
    if a + b < |events| {
      assert events[a + b] == rest[b];
    }
    DueIsFirstLate(events, t, a + b);
  }

  /** The outcome of the loops of samples 0 to `sampleId`: the events due by then applied
      in order to `start`, the others pending. */
  predicate Dispatched(start: PluginState, events: seq<NoteEvent>, sampleId: nat, pending: seq<NoteEvent>,
                       now: PluginState, noteToFreq: U8 -> real)
  {
    pending == events[Due(events, sampleId)..] &&
    now == HandledAll(start, events[..Due(events, sampleId)], noteToFreq)
  }

  /** The loop of sample `s`, run on what the loops up to `s - 1` left pending, completes
      the events due by `s` and leaves those that are not. */
  lemma DispatchContinues(start: PluginState, events: seq<NoteEvent>, s: nat, pending: seq<NoteEvent>,
                          mid: PluginState, rest: seq<NoteEvent>, now: PluginState, noteToFreq: U8 -> real)
    requires s > 0 && Dispatched(start, events, s - 1, pending, mid, noteToFreq)
    requires Dispatched(mid, pending, s, rest, now, noteToFreq)
    ensures Dispatched(start, events, s, rest, now, noteToFreq)
  {
    var taken := Due(events, s - 1);
    var more := Due(pending, s);
    PendingSplits(events, s, pending);
    HandledAllAppend(start, events[..taken], pending[..more], noteToFreq);
  }

  /** The events the loop of sample `s` takes from the pending ones follow on from those
      taken before, up to the events due by `s`. */
  lemma PendingSplits(events: seq<NoteEvent>, s: nat, pending: seq<NoteEvent>)
    requires s > 0 && pending == events[Due(events, s - 1)..]
    ensures var taken := Due(events, s - 1);
      var more := Due(pending, s);
      pending[more..] == events[Due(events, s)..] &&
      events[..taken] + pending[..more] == events[..Due(events, s)]
  {
    DueSplits(events, s - 1, s);
    SlicesJoin(events, Due(events, s - 1), Due(pending, s));
  }

  /** Cutting a sequence at `a` and its rest at `b` is cutting it at `a + b`. */
  lemma SlicesJoin<T>(xs: seq<T>, a: nat, b: nat)
    requires a + b <= |xs|
    ensures xs[a..][b..] == xs[a + b..]
    ensures xs[..a] + xs[a..][..b] == xs[..a + b]
  {
  }

  /** With events sorted by time, as the host sends them, everything left pending belongs
      to a later sample. */
  lemma PendingAreLate(events: seq<NoteEvent>, sampleId: nat)
    requires forall j, k :: 0 <= j < k < |events| ==> events[j].timing <= events[k].timing
    ensures forall k :: Due(events, sampleId) <= k < |events| ==> events[k].timing > sampleId
  {
    var n := Due(events, sampleId);
    DueStopsAtFirstLate(events, sampleId);
    forall k | n <= k < |events|
      ensures events[k].timing > sampleId
    {
      assert events[n].timing > sampleId;
      assert events[n].timing <= events[k].timing || n == k;
    }
  }

  // ---------------------------------------------------------------- a block

  /** The divisions of the envelope's `next` are defined at every channel sample: a
      positive sample rate and positive ramp durations. A sample without channel
      samples renders nothing and needs nothing. */
  predicate CanRender(p: PluginState, channels: nat)
  {
    channels == 0 ||
    (p.sampleRate > 0.0 && p.envelope.attack > 0.0 && p.envelope.decay > 0.0 && p.envelope.release > 0.0)
  }

  /** The events keep what rendering needs: the sample rate and the envelope's
      parameters. */
  lemma {:induction false} HandledAllKeepsRendering(p: PluginState, events: seq<NoteEvent>,
                                                    noteToFreq: U8 -> real)
    ensures var r := HandledAll(p, events, noteToFreq);
      r.sampleRate == p.sampleRate && Envelope.SameParams(r.envelope, p.envelope)
    decreases |events|
  {
    if |events| > 0 {
      var before := events[..|events| - 1];
      HandledAllKeepsRendering(p, before, noteToFreq);
      HandledEffects(HandledAll(p, before, noteToFreq), events[|events| - 1], noteToFreq);
    }
  }

  /** The rendering loop of one sample, reduced to the envelope: it advances once per
      channel sample and nothing else in the note state changes. */
  function Rendered(p: PluginState, channels: nat): (r: PluginState)
    requires CanRender(p, channels)
    ensures r == p.(envelope := r.envelope) && Envelope.SameParams(r.envelope, p.envelope)
    ensures CanRender(r, channels)
    ensures channels > 0 ==> r.envelope == Envelope.Run(p.envelope, p.sampleRate, channels).0
  {
    if channels == 0 then p
    else p.(envelope := Envelope.Run(p.envelope, p.sampleRate, channels).0)
  }

  /** Samples `sampleId` to `samples - 1` of a block: each first takes the events due
      by it from those still pending, then renders its channel samples. */
  function BlockFrom(p: PluginState, pending: seq<NoteEvent>, sampleId: nat, samples: nat,
                     channels: nat, noteToFreq: U8 -> real): (r: (PluginState, seq<NoteEvent>))
    requires CanRender(p, channels)
    decreases samples - sampleId
  {
    if sampleId >= samples then (p, pending)
    else
      var n := Due(pending, sampleId);
      HandledAllKeepsRendering(p, pending[..n], noteToFreq);
      BlockFrom(Rendered(HandledAll(p, pending[..n], noteToFreq), channels), pending[n..],
                sampleId + 1, samples, channels, noteToFreq)
  }

  lemma {:induction false} BlockFromPending(p: PluginState, events: seq<NoteEvent>, s: nat,
                                            pending: seq<NoteEvent>, samples: nat, channels: nat,
                                            noteToFreq: U8 -> real)
    requires CanRender(p, channels)
    requires 0 < s <= samples && pending == events[Due(events, s - 1)..]
    ensures BlockFrom(p, pending, s, samples, channels, noteToFreq).1 == events[Due(events, samples - 1)..]
    decreases samples - s
  {
    if s < samples {
      var n := Due(pending, s);
      PendingSplits(events, s, pending);
      HandledAllKeepsRendering(p, pending[..n], noteToFreq);
      BlockFromPending(Rendered(HandledAll(p, pending[..n], noteToFreq), channels), events, s + 1,
                       pending[n..], samples, channels, noteToFreq);
    }
  }

  /** Rendering never changes which events a sample takes: after a block, the events
      still pending are exactly those due after its last sample. */
  lemma BlockPending(p: PluginState, events: seq<NoteEvent>, samples: nat, channels: nat,
                     noteToFreq: U8 -> real)
    requires CanRender(p, channels) && samples > 0
    ensures BlockFrom(p, events, 0, samples, channels, noteToFreq).1 == events[Due(events, samples - 1)..]
  {
    var n := Due(events, 0);
    HandledAllKeepsRendering(p, events[..n], noteToFreq);
    BlockFromPending(Rendered(HandledAll(p, events[..n], noteToFreq), channels), events, 1,
                     events[n..], samples, channels, noteToFreq);
  }

  lemma {:induction false} SilentBlockFrom(start: PluginState, events: seq<NoteEvent>, s: nat,
                                           pending: seq<NoteEvent>, p: PluginState, samples: nat,
                                           noteToFreq: U8 -> real)
    requires 0 < s <= samples && Dispatched(start, events, s - 1, pending, p, noteToFreq)
    ensures var r := BlockFrom(p, pending, s, samples, 0, noteToFreq);
      Dispatched(start, events, samples - 1, r.1, r.0, noteToFreq)
    decreases samples - s
  {
    if s < samples {
      var n := Due(pending, s);
      var now := HandledAll(p, pending[..n], noteToFreq);
      DispatchContinues(start, events, s, pending, p, pending[n..], now, noteToFreq);
      SilentBlockFrom(start, events, s + 1, pending[n..], now, samples, noteToFreq);
    }
  }

  /** Without channel samples the envelope never advances between samples, and a block
      is its event loops run back to back: the events due by its last sample applied
      in order. */
  lemma SilentBlock(p: PluginState, events: seq<NoteEvent>, samples: nat, noteToFreq: U8 -> real)
    requires samples > 0
    ensures var r := BlockFrom(p, events, 0, samples, 0, noteToFreq);
      Dispatched(p, events, samples - 1, r.1, r.0, noteToFreq)
  {
    var n := Due(events, 0);
    SilentBlockFrom(p, events, 1, events[n..], HandledAll(p, events[..n], noteToFreq), samples,
                    noteToFreq);
  }

  /** The rendering between two samples matters: an attack that completes during
      sample 0 is in its decay when a note-on arrives at sample 1, so the note-on only
      restarts the trigger timer. Applied to the envelope as it stood before the
      block, the same note-on would restart the attack. */
  lemma NoteOnMeetsAdvancedEnvelope(p: PluginState, note: U8, velocity: real, noteToFreq: U8 -> real)
    requires CanRender(p, 1)
    requires p.envelope.stage == Envelope.EnvelopeStage.Attack && p.envelope.stepTimer >= p.envelope.attack
    ensures BlockFrom(p, [NoteOn(1, note, velocity)], 0, 2, 1, noteToFreq).0.envelope.stage
            == Envelope.EnvelopeStage.Decay
    ensures HandledAll(p, [NoteOn(1, note, velocity)], noteToFreq).envelope.stage
            == Envelope.EnvelopeStage.Attack
  {
    var events := [NoteOn(1, note, velocity)];
    assert Due(events, 0) == 0;
    assert Due(events, 1) == 1;
    assert events[..0] == [] && events[0..] == events && events[..1] == events && events[1..] == [];
    var q := Rendered(p, 1);
    assert q.envelope.stage == Envelope.EnvelopeStage.Decay && q.envelope.stepTimer == 0.0;
    var h := HandledAll(q, events, noteToFreq);
    assert h == Handled(HandledAll(q, events[..0], noteToFreq), events[0], noteToFreq);
    HandledAllKeepsRendering(q, events, noteToFreq);
    assert h.envelope.stage == Envelope.EnvelopeStage.Decay && h.envelope.stepTimer == 0.0;
    assert Rendered(h, 1).envelope.stage == Envelope.EnvelopeStage.Decay;
  }

  // ---------------------------------------------------------------- the object

  /** `Toby`, reduced to the fields its note handling uses. */
  class Toby {
    var sampleRate: real
    var phase: real
    var midiNoteId: U8
    var midiNoteFreq: real
    const envelope: Envelope.Adsr

    function State(): PluginState
      reads this, envelope
    {
      PluginState(sampleRate, phase, midiNoteId, midiNoteFreq, envelope.Snapshot())
    }

    constructor Default()
      ensures State() == DEFAULT_PLUGIN
    {
      sampleRate := 1.0;
      phase := 0.0;
      midiNoteId := 0;
      midiNoteFreq := 1.0;
      envelope := new Envelope.Adsr();
    }

    method Reset()
      modifies this, envelope
      ensures State() == ResetPlugin(old(State()))
    {
      phase := 0.0;
      midiNoteId := 0;
      midiNoteFreq := 1.0;
      envelope.Reset();
    }

    /** One event of the loop, with the idle envelope retriggered like an attack or a
        release. */
    method HandleEvent(event: NoteEvent, noteToFreq: U8 -> real)
      modifies this, envelope
      ensures State() == Handled(old(State()), event, noteToFreq)
    {
      match event {
        case NoteOn(_, note, _) =>
          midiNoteId := note;
          midiNoteFreq := noteToFreq(note);
          match envelope.stage {
            case Attack | Release | Idle =>
              envelope.Trigger(Envelope.EnvelopeEvent.Attack);
            case Decay | Sustain =>
              envelope.timer := 0.0;
          }
        case NoteOff(_, note) =>
          if note == midiNoteId {
            envelope.Trigger(Envelope.EnvelopeEvent.Release);
          }
        case OtherEvent(_) =>
      }
    }

    /** The loop at the top of one sample: it handles the events in order while they
        are due by this sample and returns the rest, the first of which is the event it
        stopped at. */
    method DispatchEvents(events: seq<NoteEvent>, sampleId: nat, noteToFreq: U8 -> real)
      returns (pending: seq<NoteEvent>)
      modifies this, envelope
      ensures Dispatched(old(State()), events, sampleId, pending, State(), noteToFreq)
    {
      ghost var start := State();
      var i := 0;
      while i < |events|
        invariant 0 <= i <= |events|
        invariant forall k :: 0 <= k < i ==> events[k].timing <= sampleId
        invariant State() == HandledAll(start, events[..i], noteToFreq)
      {
        if events[i].timing > sampleId {
          break;
        }
        HandleEvent(events[i], noteToFreq);
        assert events[..i + 1][..i] == events[..i];
        i := i + 1;
      }
      DueIsFirstLate(events, sampleId, i);
      pending := events[i..];
    }

    /** The rendering loop of one sample, reduced to the envelope: one `next` per
        channel sample. The oscillator, the filter and the output they write are not
        part of this model. */
    method RenderSample(channels: nat)
      requires CanRender(State(), channels)
      modifies envelope
      ensures State() == Rendered(old(State()), channels)
    {
      ghost var start := envelope.Snapshot();
      var c := 0;
      while c < channels
        invariant 0 <= c <= channels
        invariant Envelope.SameParams(envelope.Snapshot(), start)
        invariant c == 0 ==> envelope.Snapshot() == start
        invariant channels > 0 ==>
          Envelope.Run(envelope.Snapshot(), sampleRate, channels - c).0
          == Envelope.Run(start, sampleRate, channels).0
      {
        var level := envelope.Next(sampleRate);
        c := c + 1;
      }
    }

    /** A block of samples: each sample runs its event loop, picking up where the
        last one stopped, then its rendering loop. */
    method DispatchBlock(events: seq<NoteEvent>, samples: nat, channels: nat, noteToFreq: U8 -> real)
      returns (pending: seq<NoteEvent>)
      requires CanRender(State(), channels)
      modifies this, envelope
      ensures (State(), pending) == BlockFrom(old(State()), events, 0, samples, channels, noteToFreq)
    {
      ghost var start := State();
      pending := events;
      var sampleId := 0;
      while sampleId < samples
        invariant CanRender(State(), channels)
        invariant BlockFrom(State(), pending, sampleId, samples, channels, noteToFreq)
                  == BlockFrom(start, events, 0, samples, channels, noteToFreq)
        decreases samples - sampleId
      {
        ghost var mid := State();
        var rest := DispatchEvents(pending, sampleId, noteToFreq);
        HandledAllKeepsRendering(mid, pending[..Due(pending, sampleId)], noteToFreq);
        RenderSample(channels);
        pending := rest;
        sampleId := sampleId + 1;
      }
    }
  }
}
