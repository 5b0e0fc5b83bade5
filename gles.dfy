/** The part of the OpenGL ES 2.0 driver the renderer talks to: the enum
    values it passes, the calls it issues, and the binding state those calls
    change. `Device` is a recording device: it holds the binding state and
    appends every call it receives to `trace`. `Step` and `Run`
    give the meaning of a call and of a sequence of calls on that state. */
module GLES {

  /** The C types `GLuint`/`GLenum` and `GLint`. */
  type u32 = x: int | 0 <= x < 0x1_0000_0000
  type i32 = x: int | -0x8000_0000 <= x < 0x8000_0000

  /** An `f32` value, kept as its bit pattern: the model never computes with it. */
  datatype F32 = F32(bits: bv32)

  const Zero: F32 := F32(0)

  // Primitive modes (glDrawArrays)
  const GL_POINTS: u32 := 0x0000
  const GL_LINES: u32 := 0x0001
  const GL_LINE_LOOP: u32 := 0x0002
  const GL_LINE_STRIP: u32 := 0x0003
  const GL_TRIANGLES: u32 := 0x0004
  const GL_TRIANGLE_STRIP: u32 := 0x0005
  const GL_TRIANGLE_FAN: u32 := 0x0006

  // Buffer targets and usage hints
  const GL_ARRAY_BUFFER: u32 := 0x8892
  const GL_ELEMENT_ARRAY_BUFFER: u32 := 0x8893
  const GL_STREAM_DRAW: u32 := 0x88E0
  const GL_STATIC_DRAW: u32 := 0x88E4
  const GL_DYNAMIC_DRAW: u32 := 0x88E8

  // Errors, component and pixel types
  const GL_INVALID_OPERATION: u32 := 0x0502
  const GL_UNSIGNED_BYTE: u32 := 0x1401
  const GL_FLOAT: u32 := 0x1406
  const GL_RGB: u32 := 0x1907

  // Textures
  const GL_TEXTURE_2D: u32 := 0x0DE1
  const GL_TEXTURE_MAG_FILTER: u32 := 0x2800
  const GL_TEXTURE_MIN_FILTER: u32 := 0x2801
  const GL_TEXTURE_WRAP_S: u32 := 0x2802
  const GL_TEXTURE_WRAP_T: u32 := 0x2803
  const GL_LINEAR: u32 := 0x2601
  const GL_CLAMP_TO_EDGE: u32 := 0x812F
  const GL_TEXTURE0: u32 := 0x84C0
  const GL_TEXTURE1: u32 := 0x84C1
  const GL_TEXTURE2: u32 := 0x84C2
  const GL_TEXTURE3: u32 := 0x84C3
  const GL_TEXTURE4: u32 := 0x84C4
  const GL_TEXTURE5: u32 := 0x84C5
  const GL_TEXTURE6: u32 := 0x84C6
  const GL_TEXTURE7: u32 := 0x84C7

  // Shaders
  const GL_FRAGMENT_SHADER: u32 := 0x8B30
  const GL_VERTEX_SHADER: u32 := 0x8B31
  const GL_COMPILE_STATUS: u32 := 0x8B81
  const GL_LINK_STATUS: u32 := 0x8B82

  /** Rust's `x as u32` for an `i32`: two's-complement reinterpretation. */
  function AsGLuint(x: i32): (r: u32)
    ensures x >= 0 ==> r == x
    ensures x < 0 ==> r >= 0x8000_0000
  {
    if x < 0 then x + 0x1_0000_0000 else x
  }

  /** Rust's `x as i32` for a `u32`: two's-complement reinterpretation. */
  function AsGLint(x: u32): (r: i32)
    ensures x < 0x8000_0000 ==> r == x
    ensures x >= 0x8000_0000 ==> r < 0
  {
    if x < 0x8000_0000 then x else x - 0x1_0000_0000
  }

  /** The two casts are inverse bijections. */
  lemma CastsRoundTrip(x: i32, y: u32)
    ensures AsGLint(AsGLuint(x)) == x
    ensures AsGLuint(AsGLint(y)) == y
  {
  }

  /** One driver call with its arguments. Names handed out by the driver
      (buffers, programs, shaders, textures) are recorded in the call that
      created them. */
  datatype Call =
    | GenBuffer(buffer: nat)
    | BindBuffer(target: u32, buffer: nat)
    | BufferData(target: u32, data: seq<F32>, usage: u32)
    | EnableVertexAttribArray(index: u32)
    | DisableVertexAttribArray(index: u32)
    | VertexAttribPointer(index: u32, size: i32, componentType: u32, normalized: bool, stride: i32, offset: nat)
    | Uniform1i(location: i32, i0: i32)
    | Uniform2i(location: i32, i0: i32, i1: i32)
    | Uniform3i(location: i32, i0: i32, i1: i32, i2: i32)
    | Uniform4i(location: i32, i0: i32, i1: i32, i2: i32, i3: i32)
    | Uniform1f(location: i32, f0: F32)
    | Uniform2f(location: i32, f0: F32, f1: F32)
    | Uniform3f(location: i32, f0: F32, f1: F32, f2: F32)
    | Uniform4f(location: i32, f0: F32, f1: F32, f2: F32, f3: F32)
    | DrawArrays(mode: u32, first: i32, count: i32)
    | CreateProgram(program: nat)
    | CreateShader(shaderType: u32, shader: nat)
    | ShaderSource(shader: nat, source: string)
    | CompileShader(shader: nat)
    | GetShaderiv(shader: nat, pname: u32)
    | GetShaderInfoLog(shader: nat)
    | AttachShader(program: nat, shader: nat)
    | LinkProgram(program: nat)
    | GetProgramiv(program: nat, pname: u32)
    | GetProgramInfoLog(program: nat)
    | UseProgram(program: nat)
    | GenTexture(texture: nat)
    | ActiveTexture(unit: u32)
    | BindTexture(target: u32, texture: nat)
    | TexParameteri(target: u32, pname: u32, param: i32)
    | TexImage2D(target: u32, level: i32, internalFormat: i32, width: i32, height: i32,
                 border: i32, format: u32, pixelType: u32, pixels: seq<bv8>)
  {
    /** True of the calls that hand out a new name. */
    predicate Generates() {
      GenBuffer? || CreateProgram? || CreateShader? || GenTexture?
    }

    /** True of the calls that leave the binding state alone: name
        generation, shader and program building, queries and the draw. */
    predicate Inert() {
      Generates() || DrawArrays? || ShaderSource? || CompileShader? || GetShaderiv? ||
      GetShaderInfoLog? || AttachShader? || LinkProgram? || GetProgramiv? || GetProgramInfoLog?
    }
  }

  /** Vertex layout recorded by glVertexAttribPointer, including the array
      buffer that was bound when it was issued. */
  datatype AttribPointer = AttribPointer(buffer: nat, size: i32, componentType: u32,
                                         normalized: bool, stride: i32, offset: nat)

  datatype BufferStore = BufferStore(data: seq<F32>, usage: u32)

  datatype UniformValue = Ints(ints: seq<i32>) | Floats(floats: seq<F32>)

  datatype TextureImage = TextureImage(level: i32, internalFormat: i32, width: i32, height: i32,
                                       format: u32, pixelType: u32, pixels: seq<bv8>)

  /** The driver's binding state. Uniform values belong to a program and are
      keyed by (program, location). */
  datatype DeviceState = DeviceState(
    enabledAttribs: set<u32>,
    arrayBuffer: nat,
    elementArrayBuffer: nat,
    attribPointers: map<u32, AttribPointer>,
    bufferStores: map<nat, BufferStore>,
    currentProgram: nat,
    uniforms: map<(nat, i32), UniformValue>,
    activeTexture: u32,
    boundTextures: map<u32, nat>,
    textureParams: map<(nat, u32), i32>,
    textureImages: map<nat, TextureImage>)

  /** The state of a fresh context: nothing bound, unit 0 active. */
  const Initial: DeviceState :=
    DeviceState({}, 0, 0, map[], map[], 0, map[], GL_TEXTURE0, map[], map[], map[])

  /** The buffer bound to `target`, 0 for an unknown target. */
  function BoundBuffer(s: DeviceState, target: u32): nat {
    if target == GL_ARRAY_BUFFER then s.arrayBuffer
    else if target == GL_ELEMENT_ARRAY_BUFFER then s.elementArrayBuffer
    else 0
  }

  /** The 2D texture bound to the active unit, 0 if none. */
  function BoundTexture(s: DeviceState): nat {
    if s.activeTexture in s.boundTextures then s.boundTextures[s.activeTexture] else 0
  }

  function SetUniform(s: DeviceState, location: i32, v: UniformValue): DeviceState {
    s.(uniforms := s.uniforms[(s.currentProgram, location) := v])
  }

  /** The effect of one call on the binding state, as OpenGL ES 2.0 defines it. */
  function Step(s: DeviceState, c: Call): DeviceState {
    match c
      case BindBuffer(target, b) =>
        if target == GL_ARRAY_BUFFER then s.(arrayBuffer := b)
        else if target == GL_ELEMENT_ARRAY_BUFFER then s.(elementArrayBuffer := b)
        else s
      case BufferData(target, data, usage) =>
        var bound := BoundBuffer(s, target);
        if bound == 0 then s else s.(bufferStores := s.bufferStores[bound := BufferStore(data, usage)])
      case EnableVertexAttribArray(i) => s.(enabledAttribs := s.enabledAttribs + {i})
      case DisableVertexAttribArray(i) => s.(enabledAttribs := s.enabledAttribs - {i})
      case VertexAttribPointer(i, size, ty, norm, stride, offset) =>
        s.(attribPointers := s.attribPointers[i := AttribPointer(s.arrayBuffer, size, ty, norm, stride, offset)])
      case Uniform1i(l, x0) => SetUniform(s, l, Ints([x0]))
      case Uniform2i(l, x0, x1) => SetUniform(s, l, Ints([x0, x1]))
      case Uniform3i(l, x0, x1, x2) => SetUniform(s, l, Ints([x0, x1, x2]))
      case Uniform4i(l, x0, x1, x2, x3) => SetUniform(s, l, Ints([x0, x1, x2, x3]))
      case Uniform1f(l, x0) => SetUniform(s, l, Floats([x0]))
      case Uniform2f(l, x0, x1) => SetUniform(s, l, Floats([x0, x1]))
      case Uniform3f(l, x0, x1, x2) => SetUniform(s, l, Floats([x0, x1, x2]))
      case Uniform4f(l, x0, x1, x2, x3) => SetUniform(s, l, Floats([x0, x1, x2, x3]))
      case UseProgram(p) => s.(currentProgram := p)
      case ActiveTexture(u) => s.(activeTexture := u)
      case BindTexture(target, t) =>
        if target == GL_TEXTURE_2D then s.(boundTextures := s.boundTextures[s.activeTexture := t]) else s
      case TexParameteri(target, pname, param) =>
        if target == GL_TEXTURE_2D then s.(textureParams := s.textureParams[(BoundTexture(s), pname) := param]) else s
      case TexImage2D(target, level, ifmt, w, h, border, fmt, ty, px) =>
        if target == GL_TEXTURE_2D
        then s.(textureImages := s.textureImages[BoundTexture(s) := TextureImage(level, ifmt, w, h, fmt, ty, px)])
        else s
      case _ => s
  }

  /** The state after issuing `calls` in order, starting from `s`. */
  function Run(s: DeviceState, calls: seq<Call>): DeviceState
    decreases |calls|
  {
    if calls == [] then s else Step(Run(s, calls[..|calls| - 1]), calls[|calls| - 1])
  }

  lemma RunSnoc(s: DeviceState, calls: seq<Call>, c: Call)
    ensures Run(s, calls + [c]) == Step(Run(s, calls), c)
  {
    assert (calls + [c])[..|calls|] == calls;
  }

  lemma RunOne(s: DeviceState, a: Call)
    ensures Run(s, [a]) == Step(s, a)
  {
    assert [a][..0] == [];
  }

  lemma RunThree(s: DeviceState, a: Call, b: Call, c: Call)
    ensures Run(s, [a, b, c]) == Step(Step(Step(s, a), b), c)
  {
    RunOne(s, a);
    RunSnoc(s, [a], b);
    assert [a] + [b] == [a, b];
    RunSnoc(s, [a, b], c);
    assert [a, b] + [c] == [a, b, c];
  }

  /** Issuing `a` then `b` is issuing `a + b`. */
  lemma {:induction false} RunAppend(s: DeviceState, a: seq<Call>, b: seq<Call>)
    ensures Run(s, a + b) == Run(Run(s, a), b)
    decreases |b|
  {
    if b == [] {
      assert a + b == a;
    } else {
      var b' := b[..|b| - 1];
      var c := b[|b| - 1];
      assert b == b' + [c];
      assert a + b == (a + b') + [c];
      RunSnoc(s, a + b', c);
      RunAppend(s, a, b');
      RunSnoc(Run(s, a), b', c);
    }
  }

  /** Inert calls leave the binding state as it is. */
  lemma StepInert(s: DeviceState, c: Call)
    requires c.Inert()
    ensures Step(s, c) == s
  {
  }

  /** A name the driver hands out; 0 is never a name. */
  type pos = n: int | 0 < n witness 1

  /** A recording device: the driver as the firmware sees it. It holds the
      binding state of the context, every call it has received, in order,
      and the next object name it will hand out. */
  class Device {
    var state: DeviceState
    var trace: seq<Call>
    var nextName: pos

    /** A fresh context, in its initial state, handing out 1 first. */
    constructor ()
      ensures state == Initial && trace == [] && nextName == 1
    {
      state, trace, nextName := Initial, [], 1;
    }

    /** Receives one call: records it and applies its effect, `Step`. A
        generating call carries the name the device hands out, and the
        device moves on to the next one. */
    method Issue(c: Call)
      modifies this
      ensures state == Step(old(state), c)
      ensures trace == old(trace) + [c]
      ensures nextName == old(nextName) + (if c.Generates() then 1 else 0)
    {
      state := Step(state, c);
      trace := trace + [c];
      if c.Generates() {
        nextName := nextName + 1;
      }
    }

    /** Receives a call that leaves the binding state alone. */
    method IssueInert(c: Call)
      requires c.Inert()
      modifies this
      ensures state == old(state)
      ensures trace == old(trace) + [c]
      ensures nextName == old(nextName) + (if c.Generates() then 1 else 0)
    {
      StepInert(state, c);
      Issue(c);
    }

    /** Receives calls that hand out no name, one after the other. */
    method IssueAll(calls: seq<Call>)
      requires forall i | 0 <= i < |calls| :: !calls[i].Generates()
      modifies this
      ensures state == Run(old(state), calls)
      ensures trace == old(trace) + calls
      ensures nextName == old(nextName)
    {
      for i := 0 to |calls|
        invariant state == Run(old(state), calls[..i])
        invariant trace == old(trace) + calls[..i]
        invariant nextName == old(nextName)
      {
        Issue(calls[i]);
        RunSnoc(old(state), calls[..i], calls[i]);
        assert calls[..i + 1] == calls[..i] + [calls[i]];
      }
      assert calls[..|calls|] == calls;
    }
  }
}
