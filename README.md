# song: rendering core in Dafny

A model of the rendering core of the `song` music-composition crate.

- **Mono buffer** (`Wave` module, `src/wave.rs`). A growable buffer of samples. It supports offset mixing (`add`, `add_consuming`), which grows the buffer with zeros when the write runs past the end. It also supports scaling, element-wise products, `resize` and `clear`. `Wave.Mono` is a class whose field `wave: seq<real>` the methods update in place, with loops that follow the source's loops. Each mixing, scaling, product and resize method is proved against a pure function: `Mixed`, `Scaled`, `ZipWith` or `Resized`. What the source promises is then proved about those functions.
- **Pitch and MIDI track** (`Midi` module, `src/tracks/midi.rs`). `Pitch` is the 7-bit validating constructor. `Midi.MidiTrack` is a class. `SetTimeManager` hands one timeline handle to every time-aware part of the track. `Play` runs the fixed pipeline: instrument output, then the effect chain, then the gain.
- **Song** (`Song` module, `src/lib.rs`). The song keeps a map from a one-byte channel id to a track. `AddMidiTrack` is the lowest-free-id allocator over 0..=255. `GetWave` mixes every track's rendered buffer in at offset 0. The tracks are visited in an arbitrary order, and the method is still proved equal to an order-free reference mixdown.

Samples are exact `real`s. The track type is a type parameter of `Song.Song`. The operations the song asks of a track are function parameters: `put_in_song` as `put`, and `Track::play` as `render`. A MIDI track has four collaborators: its instrument's synthesis, its effect chain's DSP, automation and the time manager. The first two are function parameters of `Play`. The other two appear only as object identities.

## Model

| member | source | states |
|---|---|---|
| `Wave.Resized` | src/wave.rs:137-139 | the result has length `n`; it keeps the old prefix up to `min(n, old length)` and fills every new slot with the fill value |
| `Wave.ZipWith` | src/wave.rs:103-105 | zip-and-update keeps the length of `self`; positions below the other's length are combined, and the others keep their old value |
| `Wave.Scaled` | src/wave.rs:68-70 | same length, and each sample is the old sample times the factor |
| `Wave.AddAt` | src/wave.rs:81-83 | the index loop adds `other[i]` at `i + index` and leaves every other position as it was |
| `Wave.Mixed` | src/wave.rs:77-84 | the general path of `add`: the length becomes `max(old length, index + other length)`, so the buffer never shrinks; each sample is the old sample (0 in the grown gap) plus `other[k - index]` inside the written window |
| `Wave.FastPathAgrees` | src/wave.rs:73-84 | with offset 0 and equal lengths, the zip fast path gives exactly the general path's result |
| `Wave.MixCommutes` | src/wave.rs:77-84 | mixing two buffers into a third gives the same result in either order, at any offsets |
| `Wave.MixIntoEmpty` | src/wave.rs:77-84 | mixing into an empty buffer at offset 0 gives the mixed-in buffer unchanged |
| `Wave.ScaledByOne` | src/wave.rs:68-70 | scaling by 1.0 leaves every buffer unchanged |
| `Wave.Mono.New` | src/wave.rs:38-40 | the new buffer is empty |
| `Wave.Mono.WithCapacity` | src/wave.rs:42-46 | the capacity is only a hint; the new buffer is empty |
| `Wave.Mono.Zeros` | src/wave.rs:48-52 | length `n`, every sample 0 |
| `Wave.Mono.Ones` | src/wave.rs:54-58 | length `n`, every sample 1 |
| `Wave.Mono.FromVec` | src/wave.rs:64-66 | the buffer holds exactly the given samples |
| `Wave.Mono.GetVec` | src/wave.rs:32-34 | returns the buffer's samples |
| `Wave.Mono.Len` | src/wave.rs:121-123 | returns the number of samples |
| `Wave.Mono.IsEmpty` | src/wave.rs:125-127 | true exactly when the length is 0 |
| `Wave.Mono.Clear` | src/wave.rs:60-62 | the buffer becomes empty |
| `Wave.Mono.Resize` | src/wave.rs:137-139 | the new contents are `Resized(old contents, n, value)` |
| `Wave.Mono.Scale` | src/wave.rs:68-70 | the new contents are the old ones scaled sample-wise |
| `Wave.Mono.AddConsuming` | src/wave.rs:72-85 | on both the fast and the general path, the new contents are `Mixed(old contents, other, index)` |
| `Wave.Mono.Add` | src/wave.rs:87-100 | the same postcondition as `AddConsuming`, with growth through `resize` |
| `Wave.Mono.ScaleByVec` | src/wave.rs:101-106 | the length is kept; the element-wise product over the common prefix, which is everything when the lengths agree |
| `Wave.Mono.MultConsuming` | src/wave.rs:108-113 | the length is kept; element-wise product with the other buffer over the common prefix |
| `Wave.Mono.Mult` | src/wave.rs:114-119 | the length is kept; element-wise product with the other buffer over the common prefix |
| `Wave.FromVecRoundTrip` | src/wave.rs:64-66 | `get_vec(from_vec(v)) == v` |
| `Wave.AddMatchesAddConsuming` | src/wave.rs:72-100 | `add` and `add_consuming` leave identical buffers for the same inputs, of length `max(len, index + other length)` |
| `Midi.Pitch.Get` | src/tracks/midi.rs:21-23 | returns the stored note number unchanged: the pitch built from it is the same pitch |
| `Midi.NewPitch` | src/tracks/midi.rs:13-19 | `Some` exactly when the value is below 0x80; on success `get` returns the value |
| `Midi.NewUncheckedPitch` | src/tracks/midi.rs:25-27 | no validation; `get` returns the value |
| `Midi.NewPitchIsUncheckedWhenValid` | src/tracks/midi.rs:13-27 | below 0x80, the checked and unchecked factories build the same pitch |
| `Midi.BypassedUnitGainIsRaw` | src/tracks/midi.rs:86-95 | with bypassed effects and gain 1.0, the pipeline output is exactly the instrument's output |
| `Midi.MidiTrack.New` | src/tracks/midi.rs:74-85 | empty name, gain 1.0, no notes, the empty instrument, `Bypass` effects and control panel, fresh automation and time handles |
| `Midi.MidiTrack.FromInstrument` | src/tracks/midi.rs:97-110 | named after the instrument, which it holds; gain 1.0, no notes, `Bypass` effects and panel, fresh handles |
| `Midi.MidiTrack.SetTimeManager` | src/tracks/midi.rs:54-63 | afterwards the instrument, effects, control panel, automation manager and the track itself all hold the same timeline; nothing else changes |
| `Midi.MidiTrack.Play` | src/tracks/midi.rs:86-95 | returns a fresh buffer equal to `Scaled(Apply(effects, synth(instrument, notes), panel, zero of the timeline), gain)`: instrument, then effects, then the gain exactly once |
| `Song.LowestClaim` | src/lib.rs:40-51 | the first id from `from` on that is vacant and not answered with `Overwrite`, or 256 when there is none; no id before it qualifies |
| `Song.LowestClaimAt` | src/lib.rs:40-51 | an id that qualifies, with no qualifying id below it, is the one the scan stops at |
| `Song.Registered` | src/lib.rs:39-54 | no existing entry is replaced or changed; a success adds exactly one entry; any other outcome leaves the map unchanged |
| `Song.RegisteredTakesLowest` | src/lib.rs:40-50 | when the lowest vacant, non-`Overwrite` id is accepted, the track is stored exactly there and the result is `Ok` |
| `Song.RegisteredOkHasLowest` | src/lib.rs:40-50 | conversely, every `Ok` stores the track under such a lowest id |
| `Song.OverwriteSkipsId` | src/lib.rs:44-45 | an id answered with `Overwrite` never receives the track |
| `Song.OverflowIffNoClaim` | src/lib.rs:40-53 | the result is `Err(Overflow)` exactly when every id in 0..=255 is occupied or answered with `Overwrite` |
| `Song.TrackCountBounded` | src/lib.rs:25 | a song never holds more than 256 tracks |
| `Song.FullSongOverflows` | src/lib.rs:40-53 | with 256 tracks, registration returns `Err(Overflow)` and leaves the map unchanged |
| `Song.MixdownOfNone` | src/lib.rs:56-62 | no tracks mix down to a zero-length buffer |
| `Song.MixdownOfOne` | src/lib.rs:56-62 | one track mixes down to exactly its own rendered buffer |
| `Song.MixdownInsert` | src/lib.rs:58-60 | adding one more track to the mixdown is the same as mixing its buffer in at offset 0 |
| `Song.MixdownLength` | src/lib.rs:56-62 | the mixdown is exactly as long as the longest rendered buffer |
| `Song.MixInOrderIsMixdown` | src/lib.rs:58-60 | mixing the tracks in any order that lists each id once gives the same buffer, `Mixdown` |
| `Song.Rendered` | src/lib.rs:58-59 | one rendered buffer per stored track, under the same id |
| `Song.Song.New` | src/lib.rs:32-37 | the song has the given name and no tracks |
| `Song.Song.GetName` | src/lib.rs:29-31 | returns the name |
| `Song.Song.AddMidiTrack` | src/lib.rs:39-54 | the outcome and new map are `Registered(old map, track, put)`, checked over the `0..=u8::MAX` loop with its early returns; the name is unchanged |
| `Song.Song.GetWave` | src/lib.rs:56-62 | for the tracks visited in an arbitrary order, the result is `Mixdown`: length is the maximum rendered length, and each sample is the sum of the tracks' samples there, with 0 past a track's end |

## Left out

I/O, concurrency, floating point and the crate's other modules are outside this model. Each line gives the reason.

- `Mono::normalize` (src/wave.rs:129-135): it needs a floating-point square root and divides by zero on a silent buffer.
- `Pitch::get_freq` (src/tracks/midi.rs:29-31): it needs floating-point `powf`.
- IEEE `f64` rounding: samples are exact reals, so sums and products are exact, and no claim is made about float associativity.
- `usize` overflow of `index + other.len()` in `add` and `add_consuming`: indices are unbounded naturals.
- The `Wave` trait: only its one implementation, `Mono`, is modelled. This model uses no traits.
- `Wave.Mono.ScaleByVec`, `Wave.Mono.Mult`, `Wave.Mono.MultConsuming`: the equal-length check is a `debug_assert` in the source. It is not a precondition here; the model follows the release build, where `zip` stops at the shorter operand.
- `Wave.Mono.AddConsuming`, `Wave.Mono.MultConsuming`: taking `other` by value (a move) is not modelled. The model only requires `other` to be a different buffer from `self`, as Rust's borrow rules guarantee.
- `Song.Song.AddMidiTrack`: the `todo!()` abort on a refusal other than `Overwrite` is an explicit outcome, `Todo(cause)`, that leaves the map unchanged. It is not a precondition.
- `Song.Song.AddMidiTrack`: `put_in_song` takes the track mutably. A change it makes before answering `Overwrite` is not carried to the next id, because each attempt sees the original track. The track stored on success is the one `put` returns.
- `put_in_song`, `Track::play` and the `Track` enum are not part of this model (they live in tracks/mod.rs). The song takes them as the function parameters `put` and `render`.
- The instrument's synthesis and the effect chain's DSP are the function parameters `synth` and `dsp` of `Midi.MidiTrack.Play`. The effects module is not part of this model. That a `Bypass` chain leaves the wave unchanged is an assumption of this model (`Midi.Apply`).
- `Rc<RefCell<…>>` sharing is modelled as object identity. The timeline and the automation manager are classes. The owned instrument, effect chain and control panel are values that hold a timeline handle. The `set_time_manager` of each sub-component is modelled as rebinding that handle.
- A sub-component's timeline before any `set_time_manager` depends on constructors outside this model, so it is `null` here. The zero point of `TimeManager::default()` is left unspecified.
- The `timeline` slot of a `Bypass` effect chain or control panel is an artifact of this model: in the Rust code `EffectNode::Bypass` and `CtrlPanel::Bypass` are unit variants with nowhere to keep a timeline, so `Synchronized()` and `SetTimeManager` saying that a bypassed chain or panel "holds" the timeline mean nothing there.
- That `EmptyInstrument` synthesises silence is not modelled: `synth` is an arbitrary function, also on the empty instrument.
- Any state that `Track::play` advances through shared handles (automation cursors, the timeline) is not modelled: `render` is a pure function, so the order independence proved for `Song.Song.GetWave` and `Song.MixInOrderIsMixdown` holds only when one track's rendering cannot affect another's.
- Note timestamps and control values (`time::TimeStamp`, `auto::CtrlVal`) are opaque data.
- The name of `EmptyInstrument` is not modelled, since `MidiTrack::new` ignores it.
- `set_automation_manager` (a pure forwarding call), the `Debug` derive and the declared modules `ctrl_f`, `effects`, `error`, `globals`, `instr`, `io`, `network`, `time`, `utils` (src/lib.rs:8-18) are not modelled.

Two details of the code are easy to miss. The registration scan skips occupied ids, and it also skips vacant ids that the track answers with `Overwrite`. And `add_midi_track` propagates no timeline itself.
