/**
  The renderer's parameter state: the current size and RGBA color that Control Change
  messages drive, and the uniforms buffer that mirrors them for the GPU.

  Floats are modelled as exact reals; a normalised value is `value / 127`.
 */
module Rendering {
  import opened Wrappers
  import opened MidiMessages

  /** A `SIMD4<Float>`: x, y, z, w are red, green, blue and alpha of a color. */
  datatype Float4 = Float4(x: real, y: real, z: real, w: real)

  /** The `Uniforms` struct copied into the GPU buffer: a size and a color. */
  datatype Uniforms = Uniforms(size: real, color: Float4)

  const DefaultSize: real := 1.0
  const DefaultColor: Float4 := Float4(1.0, 0.0, 0.0, 1.0)
  const Defaults: Uniforms := Uniforms(DefaultSize, DefaultColor)

  /** Contents of a freshly allocated, zero-filled uniforms buffer. */
  const ZeroUniforms: Uniforms := Uniforms(0.0, Float4(0.0, 0.0, 0.0, 0.0))

  // ---------------------------------------------------------------------------
  // Normalisation and the controller table

  /** `Float(value) / 127.0`: maps the 7-bit range onto [0, 1]; larger bytes are not clamped. */
  function Normalize(value: byte): (r: real)
    ensures r * 127.0 == value as int as real
    ensures 0.0 <= r
    ensures value <= 127 ==> r <= 1.0
    ensures value > 127 ==> r > 1.0
    ensures value == 0 ==> r == 0.0
    ensures value == 127 ==> r == 1.0
  {
    value as int as real / 127.0
  }

  lemma NormalizeMonotone(a: byte, b: byte)
    ensures a <= b <==> Normalize(a) <= Normalize(b)
  {
  }

  /** The parameters a controller can drive. */
  datatype Field = Red | Green | Blue | Size

  /** The controller number assigned to each parameter. */
  function CCFor(f: Field): (cc: byte)
    ensures 13 <= cc <= 16
  {
    match f
    case Red => 13
    case Green => 14
    case Blue => 15
    case Size => 16
  }

  /** The parameter a controller number drives, if any: the inverse of CCFor on 13..16. */
  function FieldFor(ccNumber: byte): (f: Option<Field>)
    ensures f.Some? <==> 13 <= ccNumber <= 16
    ensures f.Some? ==> CCFor(f.value) == ccNumber
  {
    if ccNumber == 13 then Some(Red)
    else if ccNumber == 14 then Some(Green)
    else if ccNumber == 15 then Some(Blue)
    else if ccNumber == 16 then Some(Size)
    else None
  }

  lemma FieldForCCFor(f: Field)
    ensures FieldFor(CCFor(f)) == Some(f)
  {
  }

  /** Reads one parameter out of a uniforms value. */
  function Get(u: Uniforms, f: Field): real {
    match f
    case Red => u.color.x
    case Green => u.color.y
    case Blue => u.color.z
    case Size => u.size
  }

  /** Two uniforms values agreeing on every parameter and on alpha are equal. */
  lemma UniformsExtensional(a: Uniforms, b: Uniforms)
    requires forall f :: Get(a, f) == Get(b, f)
    requires a.color.w == b.color.w
    ensures a == b
  {
    assert Get(a, Red) == Get(b, Red) && Get(a, Green) == Get(b, Green);
    assert Get(a, Blue) == Get(b, Blue) && Get(a, Size) == Get(b, Size);
  }

  // ---------------------------------------------------------------------------
  // One message, many messages

  /**
    The effect of one message on (size, color): the if-chain over 13, 14, 15, 16 in
    `didReceiveMIDIMessage`. The channel plays no part.
   */
  function Apply(u: Uniforms, ccNumber: byte, value: byte): (r: Uniforms)
    ensures forall f :: Get(r, f) == if FieldFor(ccNumber) == Some(f) then Normalize(value) else Get(u, f)
    ensures r.color.w == u.color.w
    ensures FieldFor(ccNumber).None? ==> r == u
  {
    var n := Normalize(value);
    if ccNumber == 13 then u.(color := u.color.(x := n))
    else if ccNumber == 14 then u.(color := u.color.(y := n))
    else if ccNumber == 15 then u.(color := u.color.(z := n))
    else if ccNumber == 16 then u.(size := n)
    else u
  }

  lemma ApplyIdempotent(u: Uniforms, ccNumber: byte, value: byte)
    ensures Apply(Apply(u, ccNumber, value), ccNumber, value) == Apply(u, ccNumber, value)
  {
  }

  /** Messages aimed at different parameters (or at none) commute. */
  lemma ApplyCommutes(u: Uniforms, c1: byte, v1: byte, c2: byte, v2: byte)
    requires FieldFor(c1).None? || FieldFor(c1) != FieldFor(c2)
    ensures Apply(Apply(u, c1, v1), c2, v2) == Apply(Apply(u, c2, v2), c1, v1)
  {
  }

  /** The messages processed in arrival order, starting from `u`. */
  function ApplyAll(u: Uniforms, msgs: seq<CCMessage>): Uniforms
    decreases |msgs|
  {
    if msgs == [] then u
    else
      var m := msgs[|msgs| - 1];
      Apply(ApplyAll(u, msgs[..|msgs| - 1]), m.ccNumber, m.value)
  }

  /** Processing two batches one after the other is processing their concatenation. */
  lemma {:induction false} ApplyAllAppend(u: Uniforms, a: seq<CCMessage>, b: seq<CCMessage>)
    ensures ApplyAll(u, a + b) == ApplyAll(ApplyAll(u, a), b)
    decreases |b|
  {
    if b == [] {
      assert a + b == a;
    } else {
      var n := |b| - 1;
      assert (a + b)[..|a + b| - 1] == a + b[..n];
      assert (a + b)[|a + b| - 1] == b[n];
      ApplyAllAppend(u, a, b[..n]);
    }
  }

  /** The value of the last message in `msgs` aimed at parameter `f`, if there is one. */
  function LastValueFor(msgs: seq<CCMessage>, f: Field): (v: Option<byte>)
    ensures v.None? <==> forall i :: 0 <= i < |msgs| ==> FieldFor(msgs[i].ccNumber) != Some(f)
    ensures v.Some? ==> exists i :: (0 <= i < |msgs| && FieldFor(msgs[i].ccNumber) == Some(f) &&
      msgs[i].value == v.value && forall j :: i < j < |msgs| ==> FieldFor(msgs[j].ccNumber) != Some(f))
    decreases |msgs|
  {
    if msgs == [] then None
    else
      var m := msgs[|msgs| - 1];
      if FieldFor(m.ccNumber) == Some(f) then Some(m.value)
      else
        var rest := LastValueFor(msgs[..|msgs| - 1], f);
        assert forall i :: 0 <= i < |msgs| - 1 ==> msgs[..|msgs| - 1][i] == msgs[i];
        rest
  }

  /**
    Last write wins: after any sequence of messages each parameter holds the normalised
    value of the last message aimed at it, or its starting value if none was.
   */
  lemma {:induction false} LastWriteWins(u: Uniforms, msgs: seq<CCMessage>, f: Field)
    ensures Get(ApplyAll(u, msgs), f) ==
      match LastValueFor(msgs, f)
      case None => Get(u, f)
      case Some(v) => Normalize(v)
    decreases |msgs|
  {
    if msgs != [] {
      LastWriteWins(u, msgs[..|msgs| - 1], f);
    }
  }

  /** Alpha is never written: it keeps its starting value whatever arrives. */
  lemma {:induction false} AlphaPreserved(u: Uniforms, msgs: seq<CCMessage>)
    ensures ApplyAll(u, msgs).color.w == u.color.w
    decreases |msgs|
  {
    if msgs != [] {
      AlphaPreserved(u, msgs[..|msgs| - 1]);
    }
  }

  lemma {:induction false} LastValueForAppend(a: seq<CCMessage>, b: seq<CCMessage>, f: Field)
    ensures LastValueFor(a + b, f) == if LastValueFor(b, f).Some? then LastValueFor(b, f) else LastValueFor(a, f)
    decreases |b|
  {
    if b == [] {
      assert a + b == a;
    } else {
      var n := |b| - 1;
      assert (a + b)[..|a + b| - 1] == a + b[..n];
      assert (a + b)[|a + b| - 1] == b[n];
      LastValueForAppend(a, b[..n], f);
    }
  }

  /** Replaying a batch of messages a second time changes nothing. */
  lemma ReplayIdempotent(u: Uniforms, msgs: seq<CCMessage>)
    ensures ApplyAll(u, msgs + msgs) == ApplyAll(u, msgs)
  {
    forall f | true
      ensures Get(ApplyAll(u, msgs + msgs), f) == Get(ApplyAll(u, msgs), f)
    {
      LastWriteWins(u, msgs + msgs, f);
      LastWriteWins(u, msgs, f);
      LastValueForAppend(msgs, msgs, f);
    }
    AlphaPreserved(u, msgs + msgs);
    AlphaPreserved(u, msgs);
    UniformsExtensional(ApplyAll(u, msgs + msgs), ApplyAll(u, msgs));
  }

  /** The channel of a message never matters: only controller numbers and values do. */
  lemma {:induction false} ChannelIrrelevant(u: Uniforms, a: seq<CCMessage>, b: seq<CCMessage>)
    requires |a| == |b|
    requires forall i :: 0 <= i < |a| ==> a[i].ccNumber == b[i].ccNumber && a[i].value == b[i].value
    ensures ApplyAll(u, a) == ApplyAll(u, b)
    decreases |a|
  {
    if a != [] {
      ChannelIrrelevant(u, a[..|a| - 1], b[..|b| - 1]);
    }
  }

  /** Size and the three color channels all lie in [0, 1]. */
  predicate InUnitRange(u: Uniforms) {
    0.0 <= u.size <= 1.0 && 0.0 <= u.color.x <= 1.0 &&
    0.0 <= u.color.y <= 1.0 && 0.0 <= u.color.z <= 1.0
  }

  /** Seven-bit values keep every parameter in [0, 1]. */
  lemma {:induction false} UnitRangePreserved(u: Uniforms, msgs: seq<CCMessage>)
    requires InUnitRange(u)
    requires forall i :: 0 <= i < |msgs| ==> msgs[i].value <= 127
    ensures InUnitRange(ApplyAll(u, msgs))
    decreases |msgs|
  {
    if msgs != [] {
      UnitRangePreserved(u, msgs[..|msgs| - 1]);
    }
  }

  // ---------------------------------------------------------------------------
  // The renderer object

  /** The parameter-holding part of `Renderer`; the Metal device, pipeline and vertex buffer are left out. */
  class Renderer {
    var currentSize: real
    var currentColor: Float4
    /** The `uniformsBuffer` contents, or None when no buffer was allocated. */
    var uniformsBuffer: Option<Uniforms>

    /** The (size, color) pair the renderer currently holds. */
    function State(): Uniforms
      reads this
    {
      Uniforms(currentSize, currentColor)
    }

    /** Whenever a uniforms buffer exists it holds exactly the current state. */
    ghost predicate Valid()
      reads this
    {
      uniformsBuffer.Some? ==> uniformsBuffer.value == State()
    }

    /** `init`: defaults, buffer allocation (which may fail), then the first `updateUniforms`. */
    constructor (bufferAllocated: bool)
      ensures State() == Defaults
      ensures uniformsBuffer == if bufferAllocated then Some(Defaults) else None
      ensures Valid()
    {
      currentSize := DefaultSize;
      currentColor := DefaultColor;
      uniformsBuffer := None;
      new;
      SetupUniformsBuffer(bufferAllocated);
      UpdateUniforms(currentSize, currentColor);
    }

    /** `setupUniformsBuffer`: a zero-filled buffer, or none when the allocation fails. */
    method SetupUniformsBuffer(created: bool)
      modifies this`uniformsBuffer
      ensures uniformsBuffer == if created then Some(ZeroUniforms) else None
    {
      uniformsBuffer := if created then Some(ZeroUniforms) else None;
    }

    /** `updateUniforms`: overwrite the whole buffer with (size, color); no buffer, no write. */
    method UpdateUniforms(size: real, color: Float4)
      modifies this`uniformsBuffer
      ensures uniformsBuffer == if old(uniformsBuffer).Some? then Some(Uniforms(size, color)) else None
    {
      var uniforms := Uniforms(size, color);
      if uniformsBuffer.Some? {
        uniformsBuffer := Some(uniforms);
      }
    }

    /** `didReceiveMIDIMessage`: update the selected parameter, then mirror the state into the buffer. */
    method DidReceiveMIDIMessage(channel: byte, ccNumber: byte, value: byte)
      modifies this
      ensures State() == Apply(old(State()), ccNumber, value)
      ensures uniformsBuffer.Some? == old(uniformsBuffer).Some?
      ensures Valid()
    {
      var normalizedValue := Normalize(value);
      if ccNumber == 13 {
        currentColor := currentColor.(x := normalizedValue);
      } else if ccNumber == 14 {
        currentColor := currentColor.(y := normalizedValue);
      } else if ccNumber == 15 {
        currentColor := currentColor.(z := normalizedValue);
      } else if ccNumber == 16 {
        currentSize := normalizedValue;
      }
      UpdateUniforms(currentSize, currentColor);
    }

    /**
      The guard of `draw(in:)`: the frame is drawn only when the GPU objects are ready and a
      uniforms buffer exists, and then it binds exactly the current state.
     */
    method Draw(encoderReady: bool) returns (bound: Option<Uniforms>)
      requires Valid()
      ensures bound.Some? <==> encoderReady && uniformsBuffer.Some?
      ensures bound.Some? ==> bound.value == State()
    {
      if !encoderReady || uniformsBuffer.None? {
        return None;
      }
      bound := uniformsBuffer;
    }
  }
}
