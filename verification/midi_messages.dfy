/**
  The shape of the messages the MIDI input hands to its delegate:
  `didReceiveMIDIMessage(channel:ccNumber:value:)`, three unsigned bytes.
 */
module MidiMessages {

  /** A MIDI byte (Swift `UInt8`). */
  type byte = bv8

  /** One delivered Control Change message: channel, controller number and controller value. */
  datatype CCMessage = CCMessage(channel: byte, ccNumber: byte, value: byte)
}
