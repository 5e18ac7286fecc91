/**
  The MIDI input side: the packet-list callback that turns each packet into a
  (channel, controller number, value) message, and the delivery of those messages to
  the controller's delegate on the main queue.

  Each packet's data is a fixed 256-byte array, so bytes 0, 1 and 2 always exist; the
  packet's own length field is never read. The status byte's high nibble (the message
  type) is never inspected either: every packet is forwarded as if it were a Control
  Change message.
 */
module Midi {
  import opened MidiMessages
  import opened Rendering

  /** A `MIDIPacketList`: the packet count and the packets' data bytes, in order. */
  datatype PacketList = PacketList(numPackets: nat, packets: seq<seq<byte>>)

  /** Every packet that the callback reads has its first three data bytes. */
  predicate Readable(list: PacketList) {
    list.numPackets <= |list.packets| &&
    forall i :: 0 <= i < list.numPackets ==> |list.packets[i]| >= 3
  }

  /** `status & 0x0F`: the channel number carried in a status byte. */
  function Channel(status: byte): (ch: byte)
    ensures ch < 16
    ensures ch as int == status as int % 16
  {
    status & 0x0F
  }

  /** The message one packet yields: channel from byte 0, controller number and value from bytes 1 and 2. */
  function DecodePacket(data: seq<byte>): (m: CCMessage)
    requires |data| >= 3
    ensures m.channel < 16
  {
    CCMessage(Channel(data[0]), data[1], data[2])
  }

  /** Bytes after the third never influence the message. */
  lemma DecodeIgnoresTail(p: seq<byte>, q: seq<byte>)
    requires |p| >= 3 && |q| >= 3 && p[..3] == q[..3]
    ensures DecodePacket(p) == DecodePacket(q)
  {
  }

  /** A packet whose status byte is `status`, carrying `m`'s channel, controller number and value. */
  function EncodePacket(status: byte, m: CCMessage): (data: seq<byte>)
    requires m.channel < 16
    ensures |data| == 3
    ensures data[0] & 0xF0 == status & 0xF0
  {
    [(status & 0xF0) | m.channel, m.ccNumber, m.value]
  }

  /** Decoding inverts encoding whatever the message type in the status byte's high nibble. */
  lemma DecodeEncode(status: byte, m: CCMessage)
    requires m.channel < 16
    ensures DecodePacket(EncodePacket(status, m)) == m
  {
  }

  /**
    Encoding inverts decoding on the first three bytes, except for the status byte's high
    nibble, which is taken from the packet itself: decoding loses only the message type,
    and only because it is never inspected, plus the bytes after the third.
   */
  lemma EncodeDecode(data: seq<byte>)
    requires |data| >= 3
    ensures EncodePacket(data[0], DecodePacket(data)) == data[..3]
  {
  }

  /** A Note On packet (status 0x91) is forwarded exactly like a Control Change on channel 1. */
  lemma NoteOnIsForwarded()
    ensures DecodePacket([0x91, 13, 127]) == DecodePacket([0xB1, 13, 127]) == CCMessage(1, 13, 127)
  {
  }

  /** One message per packet, in packet order. */
  function DecodePackets(packets: seq<seq<byte>>): (events: seq<CCMessage>)
    requires forall i :: 0 <= i < |packets| ==> |packets[i]| >= 3
    ensures |events| == |packets|
    ensures forall i :: 0 <= i < |packets| ==> events[i] == DecodePacket(packets[i])
    decreases |packets|
  {
    if packets == [] then []
    else
      var init := packets[..|packets| - 1];
      assert forall i :: 0 <= i < |init| ==> init[i] == packets[i];
      DecodePackets(init) + [DecodePacket(packets[|packets| - 1])]
  }

  /**
    `midiInputCallback`: visits the first `numPackets` packets in order and posts one
    message per packet to the main queue. The posted messages are returned.
   */
  method MidiInputCallback(packetList: PacketList) returns (posted: seq<CCMessage>)
    requires Readable(packetList)
    ensures |posted| == packetList.numPackets
    ensures forall i :: 0 <= i < |posted| ==> posted[i] == DecodePacket(packetList.packets[i])
    ensures posted == DecodePackets(packetList.packets[..packetList.numPackets])
  {
    posted := [];
    for k := 0 to packetList.numPackets
      invariant |posted| == k
      invariant forall i :: 0 <= i < k ==> posted[i] == DecodePacket(packetList.packets[i])
    {
      var data := packetList.packets[k];
      var status := data[0];
      var channel := status & 0x0F;
      posted := posted + [CCMessage(channel, data[1], data[2])];
    }
  }

  /** The MIDI controller object; only its weak delegate reference matters here. */
  class MIDIController {
    var delegate: Renderer?

    constructor ()
      ensures delegate == null
    {
      delegate := null;
    }
  }

  /**
    The main queue running the blocks the callback posted, first in first out: each block
    hands its message to the controller's delegate if there is one, and does nothing otherwise.
   */
  method DrainMainQueue(controller: MIDIController, posted: seq<CCMessage>)
    requires controller.delegate != null ==> controller.delegate.Valid()
    modifies controller.delegate
    ensures controller.delegate == old(controller.delegate)
    ensures controller.delegate != null ==>
      controller.delegate.State() == ApplyAll(old(controller.delegate.State()), posted) &&
      controller.delegate.uniformsBuffer.Some? == old(controller.delegate.uniformsBuffer.Some?) &&
      controller.delegate.Valid()
  {
    for i := 0 to |posted|
      invariant controller.delegate == old(controller.delegate)
      invariant controller.delegate != null ==>
        controller.delegate.State() == ApplyAll(old(controller.delegate.State()), posted[..i]) &&
        controller.delegate.uniformsBuffer.Some? == old(controller.delegate.uniformsBuffer.Some?) &&
        controller.delegate.Valid()
    {
      var message := posted[i];
      var delegate := controller.delegate;
      if delegate != null {
        delegate.DidReceiveMIDIMessage(message.channel, message.ccNumber, message.value);
      }
      assert posted[..i + 1][..i] == posted[..i];
    }
    assert posted[..|posted|] == posted;
  }

  /** One packet list through the whole pipeline: decode every packet, then deliver in order. */
  method ReceivePacketList(controller: MIDIController, packetList: PacketList)
    requires Readable(packetList)
    requires controller.delegate != null ==> controller.delegate.Valid()
    modifies controller.delegate
    ensures controller.delegate == old(controller.delegate)
    ensures controller.delegate != null ==>
      controller.delegate.State() ==
        ApplyAll(old(controller.delegate.State()), DecodePackets(packetList.packets[..packetList.numPackets])) &&
      controller.delegate.uniformsBuffer.Some? == old(controller.delegate.uniformsBuffer.Some?) &&
      controller.delegate.Valid()
  {
    var posted := MidiInputCallback(packetList);
    DrainMainQueue(controller, posted);
  }

  /**
    A packet list whose `numPackets` is 0 can always be handed to the callback, and the
    callback then posts no message (its result is `DecodePackets` of the first 0 packets).
   */
  lemma EmptyListPostsNothing(list: PacketList)
    requires list.numPackets == 0
    ensures Readable(list)
    ensures DecodePackets(list.packets[..list.numPackets]) == []
  {
  }

  /**
    Three packets setting red to 127, size to 0 and green to 64, sent with a Note On status
    byte, leave red 1, green 64/127, blue at its default 0, size 0 and alpha 1.
   */
  lemma ThreePacketScenario()
    ensures ApplyAll(Defaults, DecodePackets([[0x91, 13, 127], [0x91, 16, 0], [0x91, 14, 64]])) ==
      Uniforms(0.0, Float4(1.0, 64.0 / 127.0, 0.0, 1.0))
  {
    var packets: seq<seq<byte>> := [[0x91, 13, 127], [0x91, 16, 0], [0x91, 14, 64]];
    var events := DecodePackets(packets);
    assert events == [CCMessage(1, 13, 127), CCMessage(1, 16, 0), CCMessage(1, 14, 64)];
    assert events[..2][..1] == events[..1] && events[..1][..0] == [];
    assert ApplyAll(Defaults, events[..1]) == Uniforms(1.0, Float4(1.0, 0.0, 0.0, 1.0));
    assert ApplyAll(Defaults, events[..2]) == Uniforms(0.0, Float4(1.0, 0.0, 0.0, 1.0));
    assert events[..3] == events;
  }
}
