# midiMetal: MIDI Control Change to render parameters

midiMetal draws a shape with Metal. Its size and color are driven live by MIDI
Control Change messages. This project models the two stages between the MIDI bytes
and the GPU uniforms, and proves properties about them:

1. **Packet decoding** (`midiInputCallback` in `MIDIController.swift`). The callback walks
   a MIDI packet list `numPackets` times. For each packet it takes byte 0 as the status
   byte and computes `channel = status & 0x0F`. It then posts `(channel, byte 1, byte 2)`
   to the main queue. There the posted block hands the message to the controller's weak
   delegate, if the delegate is still set. The packet data is a fixed 256-byte array, so
   bytes 0–2 always exist. The model therefore requires every packet to have at least
   three bytes. A Control Change status byte is 0xB0–0xBF. The callback does not test
   this, so a Note On, a Pitch Bend or any other message type is forwarded like a Control
   Change (`Midi.NoteOnIsForwarded`, `Midi.ThreePacketScenario`).
2. **Parameter mapping and the uniforms mirror** (`Renderer.didReceiveMIDIMessage`,
   `updateUniforms`, `init`). The renderer holds `currentSize` (default 1) and
   `currentColor` (default RGBA (1, 0, 0, 1)). Controller 13, 14 and 15 set red, green and
   blue. Controller 16 sets the size. The new value is `value / 127`. Every other
   controller number changes nothing. After every message the whole `(size, color)` pair
   is copied into the uniforms buffer, if that buffer exists.

Modules:

- `Wrappers`: `Option`.
- `MidiMessages`: `byte` (= `bv8`) and `CCMessage`, the shape of the delegate call
  `didReceiveMIDIMessage(channel:ccNumber:value:)`.
- `Rendering`: the pure mapper (`Normalize`, `FieldFor`, `Apply`, `ApplyAll`), its
  lemmas, and the class `Renderer`. The class has the fields `currentSize`,
  `currentColor` and `uniformsBuffer: Option<Uniforms>`. Its `Valid()` states that the
  buffer, when present, mirrors the state.
- `Midi`: the decoder (`Channel`, `DecodePacket`, `DecodePackets`), the callback loop
  `MidiInputCallback`, the class `MIDIController` with its `delegate: Renderer?`, and
  `DrainMainQueue`. `DrainMainQueue` runs the posted blocks in order against the delegate.

Swift `Float` values are modelled as exact reals. Both 0/127 = 0 and 127/127 = 1 are
exact in `Float` too.

## Model

| member | source | states |
|---|---|---|
| `Rendering.Normalize` | midiMetal/Renderer.swift:69 | the result times 127 is the value; it is never negative; 0 maps to 0 and 127 to 1; any value up to 127 lands in [0, 1]; values above 127 are not clamped and exceed 1 |
| `Rendering.NormalizeMonotone` | midiMetal/Renderer.swift:69 | normalisation preserves and reflects the order of byte values |
| `Rendering.CCFor` | midiMetal/Renderer.swift:74-92 | each driven parameter has a controller number in 13..16 |
| `Rendering.FieldFor` | midiMetal/Renderer.swift:74-92 | a controller number selects a parameter exactly when it is in 13..16, and the selected parameter's number is that controller number |
| `Rendering.FieldForCCFor` | midiMetal/Renderer.swift:74-92 | the table is a bijection: looking up a parameter's controller number gives back that parameter |
| `Rendering.Apply` | midiMetal/Renderer.swift:66-92 | one message sets exactly the parameter its controller number selects to the normalised value and leaves every other parameter and alpha unchanged; an unmapped controller number leaves the whole state unchanged; no channel argument takes part |
| `Rendering.ApplyIdempotent` | midiMetal/Renderer.swift:74-99 | applying the same message twice equals applying it once |
| `Rendering.ApplyCommutes` | midiMetal/Renderer.swift:74-92 | messages aimed at different parameters, or at none, commute |
| `Rendering.ApplyAllAppend` | midiMetal/Renderer.swift:66-99 | processing two batches one after the other equals processing their concatenation in arrival order |
| `Rendering.LastValueFor` | midiMetal/Renderer.swift:74-92 | gives None exactly when no message targets the parameter; otherwise it gives the value of a message that targets it with no later message targeting it |
| `Rendering.LastWriteWins` | midiMetal/Renderer.swift:74-99 | after any message sequence each parameter equals the normalised value of the last message targeting it, or its starting value if none did |
| `Rendering.AlphaPreserved` | midiMetal/Renderer.swift:74-92 | alpha is never written by any message sequence |
| `Rendering.LastValueForAppend` | midiMetal/Renderer.swift:74-99 | the last write in a concatenation comes from the second batch if that batch targets the parameter, otherwise from the first |
| `Rendering.ReplayIdempotent` | midiMetal/Renderer.swift:74-99 | delivering a whole batch a second time leaves the state as after the first delivery |
| `Rendering.ChannelIrrelevant` | midiMetal/Renderer.swift:66-92 | two message sequences that differ only in their channels give the same state |
| `Rendering.UnitRangePreserved` | midiMetal/Renderer.swift:67-69 | starting in [0, 1], messages whose values are at most 127 keep size, red, green and blue in [0, 1] |
| `Rendering.Renderer.constructor` | midiMetal/Renderer.swift:40-55 | the state starts at size 1 and color (1, 0, 0, 1); the buffer, when its allocation succeeds, holds exactly that state, and is absent otherwise |
| `Rendering.Renderer.SetupUniformsBuffer` | midiMetal/Renderer.swift:121-123 | the buffer becomes a zero-filled uniforms value, or absent if the allocation fails |
| `Rendering.Renderer.UpdateUniforms` | midiMetal/Renderer.swift:104-107 | an existing buffer is overwritten with the whole (size, color) pair; an absent buffer stays absent and nothing is written |
| `Rendering.Renderer.DidReceiveMIDIMessage` | midiMetal/Renderer.swift:66-100 | the new (size, color) is `Apply` of the old one; buffer presence is unchanged; afterwards the buffer, when present, holds exactly the new state |
| `Rendering.Renderer.Draw` | midiMetal/Renderer.swift:149-162 | a frame is drawn exactly when the GPU objects are ready and the buffer exists, and it binds exactly the current state |
| `Midi.Channel` | midiMetal/MIDIController.swift:71-73 | the channel is the status byte modulo 16, so it is always in 0..15 |
| `Midi.DecodePacket` | midiMetal/MIDIController.swift:67-80 | every packet with three bytes yields a message, whatever its status byte, and the message's channel is below 16 |
| `Midi.DecodeIgnoresTail` | midiMetal/MIDIController.swift:69-80 | bytes after index 2 never influence the message |
| `Midi.EncodePacket` | midiMetal/MIDIController.swift:71-80 | a three-byte packet whose status byte keeps the given message-type nibble |
| `Midi.EncodeDecode` | midiMetal/MIDIController.swift:71-80 | for every packet, re-encoding the decoded message under the packet's own status byte gives back its first three bytes: decoding keeps the channel nibble, byte 1 and byte 2, and drops only the type nibble and the tail |
| `Midi.DecodeEncode` | midiMetal/MIDIController.swift:71-80 | decoding inverts encoding for every status-byte high nibble: the message type is never inspected |
| `Midi.NoteOnIsForwarded` | midiMetal/MIDIController.swift:71-80 | a Note On packet on channel 1 yields the same message as a Control Change packet on channel 1 |
| `Midi.DecodePackets` | midiMetal/MIDIController.swift:63-84 | one message per packet, as many messages as packets, in packet order |
| `Midi.MidiInputCallback` | midiMetal/MIDIController.swift:59-85 | the loop runs exactly `numPackets` times and posts, in packet order, the decoded message of each of the first `numPackets` packets of the list (how the source locates the packets after the first is not modelled; see Left out) |
| `Midi.EmptyListPostsNothing` | midiMetal/MIDIController.swift:65 | a packet list with `numPackets` 0 is always accepted by the callback, and the callback's result for it is empty |
| `Midi.MIDIController.constructor` | midiMetal/MIDIController.swift:20-32 | a new controller has no delegate |
| `Midi.DrainMainQueue` | midiMetal/MIDIController.swift:76-81 | with a delegate, its state becomes `ApplyAll` of the posted messages in order and its buffer mirrors it; without one, nothing is modified |
| `Midi.ReceivePacketList` | midiMetal/MIDIController.swift:59-85 | a packet list taken through decoding and delivery leaves the delegate in the state that processing the decoded messages in packet order gives; the delegate's buffer stays present or absent as it was, and mirrors the new state |
| `Midi.ThreePacketScenario` | midiMetal/MIDIController.swift:71-80 | packets (0x91, 13, 127), (0x91, 16, 0) and (0x91, 14, 64) from the defaults give size 0 and color (1, 64/127, 0, 1), though 0x91 is a Note On status |

## Left out

- CoreMIDI setup: `MIDIClientCreate`, `MIDIInputPortCreate`, and source enumeration and connection (`MIDIController.swift` lines 35-55). These are operating-system calls with no logic to check.
- `Mirror` reflection. The packets are a sequence of byte sequences, and the callback indexes into it.
- Midi.MidiInputCallback: does not model how the source finds the packets after the first. `packetList.pointee` (line 61) copies only the list header and one `MIDIPacket` with its 256 data bytes into a local value, and `packet = MIDIPacketNext(&packet).pointee` (line 83) steps from the address of the local copy `var packet` (line 63), not from the list. Each later packet is therefore read out of the copy of the previous one; a packet lying beyond that 256-byte window is read from memory outside the list. The model reads every packet from the list, so it matches the source only while each packet lies inside the copied window of the one before.
- `DispatchQueue.main.async` and the `Unmanaged` context pointer. The callback returns the messages it posts. `DrainMainQueue` then runs them synchronously, in order, on the same controller. What other main-queue work could interleave with them is not modelled.
- The delegate is weak, so it may become nil between two posted blocks. The model keeps it fixed while the queue drains.
- The Renderer's own `midiController` field and the wiring at `Renderer.swift` lines 58-59, which creates the controller and sets its delegate. Modelling that reference would need the two modules to import each other.
- The Metal device, command queue, pipeline state, vertex buffer and shaders (`Renderer.swift` lines 40-53, 112-143). `Draw` keeps only the guard of `draw(in:)` and what it binds. `encoderReady` stands for the command buffer, render pass descriptor, encoder and vertex buffer all being present.
- The memory layout of `Uniforms` (stride, padding) in the buffer. The buffer is modelled as holding one `Uniforms` value.
- IEEE `Float` rounding. Normalised values are exact reals, so `Rendering.Normalize` does not model rounding of values such as 64/127.
- Cross-thread atomicity of the uniforms snapshot. The model is sequential. It states only that the buffer is always written as a whole (size, color) pair.
- `MetalView.swift` and `ContentView.swift`: SwiftUI view wiring, frame rates and cursor handling. This is UI with no logic to model.
