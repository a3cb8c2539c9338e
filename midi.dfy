/** Pitches, notes and the MIDI track of the crate's tracks::midi module: the
    track's shared timeline wiring and its rendering pipeline
    (instrument, then effects, then gain). */
module Midi {
  import opened Ints
  import opened Wave

  datatype Option<T> = None | Some(value: T)

  /** A MIDI note number; valid values are 0..=127. */
  datatype Pitch = Pitch(value: uint8) {
    /** `Pitch::get`: the note number, which determines the pitch. */
    function Get(): (v: uint8)
      ensures Pitch(v) == this
    {
      value
    }
  }

  /** `Pitch::new`: the validating factory. */
  function NewPitch(value: uint8): (p: Option<Pitch>)
    ensures p.Some? <==> value < 0x80
    ensures p.Some? ==> p.value.Get() == value
  {
    if value < 0x80 then Some(Pitch(value)) else None
  }

  /** `Pitch::new_unchecked`: no validation at all. */
  function NewUncheckedPitch(value: uint8): (p: Pitch)
    ensures p.Get() == value
  {
    Pitch(value)
  }

  /** On valid input the two factories agree. */
  lemma NewPitchIsUncheckedWhenValid(value: uint8)
    requires value < 0x80
    ensures NewPitch(value) == Some(NewUncheckedPitch(value))
  {
  }

  /** A point on the transport timeline (time.rs is not part of this model). */
  type TimeStamp = int

  /** A control value such as a velocity, static or automation-driven; the
      automation module is not part of this model. */
  datatype CtrlVal = Static(level: real) | Automated(curve: nat)

  datatype Note = Note(pitch: Pitch, on: TimeStamp, off: TimeStamp, velocity: CtrlVal)

  /** The shared transport clock (`Rc<RefCell<TimeManager>>`): only its
      identity and the zero point it currently reports are modelled. */
  class TimeManager {
    var origin: TimeStamp

    /** `TimeManager::default()`; its initial zero point is left unspecified. */
    constructor Default()
    {
    }

    function Zero(): TimeStamp
      reads this
    {
      origin
    }
  }

  /** The shared automation manager (`Rc<RefCell<AutomationManager>>`),
      reduced to the timeline handle it was last given (null: whatever its own
      constructor chose, which is outside this model). */
  class AutomationManager {
    var timeManager: TimeManager?

    constructor New()
      ensures timeManager == null
    {
      timeManager := null;
    }

    method SetTimeManager(tm: TimeManager)
      modifies this
      ensures timeManager == tm
    {
      timeManager := tm;
    }
  }

  /** Which concrete synthesiser an instrument is; their algorithms are
      outside this model. */
  datatype Synth = EmptyInstrument | Plugin(id: nat)

  /** An owned instrument (`Box<dyn MidiInstrument>`): its kind, the name it
      reports and the timeline handle it holds. */
  datatype Instrument = Instrument(synth: Synth, name: string, timeline: TimeManager?)

  /** The `Bypass` variant of an effect chain or control panel, or some
      concrete one. */
  datatype Stage = Bypass | Active(id: nat)

  datatype EffectNode = EffectNode(stage: Stage, timeline: TimeManager?)

  datatype CtrlPanel = CtrlPanel(stage: Stage, timeline: TimeManager?)

  /** `effects.apply(&mut wave, &control_panel, zero)`: a bypassed chain
      leaves the wave alone, any other chain runs its (external) DSP. */
  function Apply(effects: EffectNode, wave: seq<real>, panel: CtrlPanel, zero: TimeStamp,
                 dsp: (EffectNode, seq<real>, CtrlPanel, TimeStamp) -> seq<real>): seq<real>
  {
    if effects.stage.Bypass? then wave else dsp(effects, wave, panel, zero)
  }

  /** A track with bypassed effects and unit gain renders exactly what its
      instrument synthesises. */
  lemma BypassedUnitGainIsRaw(raw: seq<real>, effects: EffectNode, panel: CtrlPanel, zero: TimeStamp,
                              dsp: (EffectNode, seq<real>, CtrlPanel, TimeStamp) -> seq<real>)
    requires effects.stage == Bypass
    ensures Scaled(Apply(effects, raw, panel, zero, dsp), 1.0) == raw
  {
    ScaledByOne(raw);
  }

  class MidiTrack {
    var name: string
    var instrument: Instrument
    var gain: real
    var effects: EffectNode
    var controlPanel: CtrlPanel
    var notes: seq<Note>
    var automationManager: AutomationManager
    var timeManager: TimeManager

    /** Every time-aware part of the track holds the track's own timeline. */
    ghost predicate Synchronized()
      reads this, automationManager
    {
      instrument.timeline == timeManager
      && effects.timeline == timeManager
      && controlPanel.timeline == timeManager
      && automationManager.timeManager == timeManager
    }

    /** `MidiTrack::new()`: the empty instrument, bypassed effects and panel. */
    constructor New()
      ensures name == "" && gain == 1.0 && notes == []
      ensures instrument.synth == EmptyInstrument
      ensures effects.stage == Bypass && controlPanel.stage == Bypass
      ensures fresh(automationManager) && fresh(timeManager)
    {
      name := "";
      instrument := Instrument(EmptyInstrument, "", null);
      gain := 1.0;
      effects := EffectNode(Bypass, null);
      controlPanel := CtrlPanel(Bypass, null);
      automationManager := new AutomationManager.New();
      notes := [];
      timeManager := new TimeManager.Default();
    }

    /** `MidiTrack::from_instrument(i)`: named after the instrument. */
    constructor FromInstrument(instr: Instrument)
      ensures name == instr.name && instrument == instr
      ensures gain == 1.0 && notes == []
      ensures effects.stage == Bypass && controlPanel.stage == Bypass
      ensures fresh(automationManager) && fresh(timeManager)
    {
      name := instr.name;
      instrument := instr;
      gain := 1.0;
      effects := EffectNode(Bypass, null);
      controlPanel := CtrlPanel(Bypass, null);
      automationManager := new AutomationManager.New();
      notes := [];
      timeManager := new TimeManager.Default();
    }

    /** `set_time_manager`: hand the same timeline to every sub-component,
        then keep it on the track. */
    method SetTimeManager(tm: TimeManager)
      modifies this, automationManager
      ensures Synchronized() && timeManager == tm
      ensures instrument == old(instrument).(timeline := tm)
      ensures effects == old(effects).(timeline := tm)
      ensures controlPanel == old(controlPanel).(timeline := tm)
      ensures automationManager == old(automationManager)
      ensures name == old(name) && gain == old(gain) && notes == old(notes)
    {
      instrument := instrument.(timeline := tm);
      effects := effects.(timeline := tm);
      controlPanel := controlPanel.(timeline := tm);
      automationManager.SetTimeManager(tm);
      timeManager := tm;
    }

    /** `play`: synthesise the notes, run the effect chain with the panel and
        the timeline's zero, then scale by the gain. */
    method Play(synth: (Instrument, seq<Note>) -> seq<real>,
                dsp: (EffectNode, seq<real>, CtrlPanel, TimeStamp) -> seq<real>)
      returns (wave: Mono)
      ensures fresh(wave)
      ensures wave.wave
           == Scaled(Apply(effects, synth(instrument, notes), controlPanel, timeManager.Zero(), dsp), gain)
    {
      wave := new Mono.FromVec(synth(instrument, notes));
      wave.wave := Apply(effects, wave.wave, controlPanel, timeManager.Zero(), dsp);
      wave.Scale(gain);
    }
  }
}
