/** The renderer of firmware/src/ebola/renderer.rs: device buffers, shader
    stages, attribute and uniform bindings, render commands and the
    stage-by-stage dispatcher.

    Every operation that talks to the driver is a method on a recording
    `Device`. Beside each such method stands a function giving its `Effect`:
    the calls it issues, in order, and the panic it ends in, if any. The
    method is proved to issue exactly those calls; the lemmas state what
    the calls do to the binding state. */
module Renderer {
  import opened Wrappers
  import opened Panics
  import opened GLES

  // ---------------------------------------------------------------------
  // Primitive types

  datatype PrimitivesType = Points | LineStrip | LineLoop | Lines | TriangleStrip | TriangleFan | Triangles

  /** The draw mode of each primitive type; `FromGL` inverts it. */
  function ToGL(p: PrimitivesType): (mode: u32)
    ensures FromGL(mode) == Some(p)
  {
    match p
    case Points => GL_POINTS
    case LineStrip => GL_LINE_STRIP
    case LineLoop => GL_LINE_LOOP
    case Lines => GL_LINES
    case TriangleStrip => GL_TRIANGLE_STRIP
    case TriangleFan => GL_TRIANGLE_FAN
    case Triangles => GL_TRIANGLES
  }

  /** The primitive type drawn by a mode, for the seven modes ES 2.0 has. */
  function FromGL(mode: u32): (r: Option<PrimitivesType>)
    ensures r.Some? <==> mode <= GL_TRIANGLE_FAN
  {
    if mode == GL_POINTS then Some(Points)
    else if mode == GL_LINES then Some(Lines)
    else if mode == GL_LINE_LOOP then Some(LineLoop)
    else if mode == GL_LINE_STRIP then Some(LineStrip)
    else if mode == GL_TRIANGLES then Some(Triangles)
    else if mode == GL_TRIANGLE_STRIP then Some(TriangleStrip)
    else if mode == GL_TRIANGLE_FAN then Some(TriangleFan)
    else None
  }

  /** `ToGL` is a bijection between the seven primitive types and the seven modes. */
  lemma ToGLBijective(p: PrimitivesType, q: PrimitivesType, mode: u32)
    ensures ToGL(p) == ToGL(q) ==> p == q
    ensures mode <= GL_TRIANGLE_FAN ==> exists t :: ToGL(t) == mode
  {
    if mode <= GL_TRIANGLE_FAN {
      var t := FromGL(mode).value;
      assert ToGL(t) == mode;
    }
  }

  // ---------------------------------------------------------------------
  // Bindings and commands

  /** An attribute location, the vertex buffer feeding it, and the number of
      components per vertex. */
  datatype AttributeBinding = AttributeBinding(attributeHndl: u32, dataBufferHndl: nat, numComponents: u32)

  datatype UniformTypedData = Integer(ints: seq<i32>) | Float(floats: seq<F32>)

  datatype UniformBinding = UniformBinding(handle: i32, data: UniformTypedData)

  /** `RenderCommand::new` is this constructor: it stores its arguments as given. */
  datatype RenderCommand = RenderCommand(
    attributeBindings: seq<AttributeBinding>,
    uniformBindings: seq<UniformBinding>,
    primitiveType: PrimitivesType,
    numVertices: u32)

  /** The calls an operation issues and the panic it ends in, if any. */
  datatype Effect = Effect(calls: seq<Call>, failure: Option<Panic>)

  /** `a`, and then `b` unless `a` panicked. */
  function Then(a: Effect, b: Effect): Effect {
    if a.failure.Some? then a else Effect(a.calls + b.calls, b.failure)
  }

  // ---------------------------------------------------------------------
  // Uniform payloads

  function Arity(d: UniformTypedData): nat {
    match d
    case Integer(xs) => |xs|
    case Float(xs) => |xs|
  }

  /** The value a uniform holds once its payload has been uploaded. */
  function ValueOf(d: UniformTypedData): UniformValue {
    match d
    case Integer(xs) => Ints(xs)
    case Float(xs) => Floats(xs)
  }

  /** The `uniform{n}i` call for an integer payload of length n in 1..4. */
  function IntegerUniformCall(location: i32, xs: seq<i32>): (r: Option<Call>)
    ensures r.Some? <==> 1 <= |xs| <= 4
  {
    if |xs| == 1 then Some(Uniform1i(location, xs[0]))
    else if |xs| == 2 then Some(Uniform2i(location, xs[0], xs[1]))
    else if |xs| == 3 then Some(Uniform3i(location, xs[0], xs[1], xs[2]))
    else if |xs| == 4 then Some(Uniform4i(location, xs[0], xs[1], xs[2], xs[3]))
    else None
  }

  /** The `uniform{n}f` call for a float payload of length n in 1..4. */
  function FloatUniformCall(location: i32, xs: seq<F32>): (r: Option<Call>)
    ensures r.Some? <==> 1 <= |xs| <= 4
  {
    if |xs| == 1 then Some(Uniform1f(location, xs[0]))
    else if |xs| == 2 then Some(Uniform2f(location, xs[0], xs[1]))
    else if |xs| == 3 then Some(Uniform3f(location, xs[0], xs[1], xs[2]))
    else if |xs| == 4 then Some(Uniform4f(location, xs[0], xs[1], xs[2], xs[3]))
    else None
  }

  function UniformCall(b: UniformBinding): (r: Option<Call>)
    ensures r.Some? <==> 1 <= Arity(b.data) <= 4
  {
    match b.data
    case Integer(xs) => IntegerUniformCall(b.handle, xs)
    case Float(xs) => FloatUniformCall(b.handle, xs)
  }

  /** The arity dispatch is exact: the call chosen for a payload of length
      1..4 sets the uniform at the binding's location, in the current
      program, to exactly that payload, and changes nothing else. */
  lemma UniformCallUploadsPayload(s: DeviceState, b: UniformBinding)
    requires 1 <= Arity(b.data) <= 4
    ensures UniformCall(b).Some? && !UniformCall(b).value.DrawArrays?
    ensures Step(s, UniformCall(b).value) == SetUniform(s, b.handle, ValueOf(b.data))
  {
    match b.data
    case Integer(xs) =>
      if |xs| == 1 { assert xs == [xs[0]]; }
      else if |xs| == 2 { assert xs == [xs[0], xs[1]]; }
      else if |xs| == 3 { assert xs == [xs[0], xs[1], xs[2]]; }
      else { assert xs == [xs[0], xs[1], xs[2], xs[3]]; }
    case Float(xs) =>
      if |xs| == 1 { assert xs == [xs[0]]; }
      else if |xs| == 2 { assert xs == [xs[0], xs[1]]; }
      else if |xs| == 3 { assert xs == [xs[0], xs[1], xs[2]]; }
      else { assert xs == [xs[0], xs[1], xs[2], xs[3]]; }
  }

  function UniformEffect(b: UniformBinding): Effect {
    match UniformCall(b)
    case Some(c) => Effect([c], None)
    case None => Effect([], Some(InvalidArity))
  }

  // ---------------------------------------------------------------------
  // The execution protocol of a render command, as call sequences

  /** The vertex layout one attribute binding describes: float components,
      not normalised, tightly packed, from offset 0 of its buffer. */
  function PointerOf(b: AttributeBinding): AttribPointer {
    AttribPointer(b.dataBufferHndl, AsGLint(b.numComponents), GL_FLOAT, false, 0, 0)
  }

  function AttributeCalls(b: AttributeBinding): seq<Call> {
    [EnableVertexAttribArray(b.attributeHndl),
     BindBuffer(GL_ARRAY_BUFFER, b.dataBufferHndl),
     VertexAttribPointer(b.attributeHndl, AsGLint(b.numComponents), GL_FLOAT, false, 0, 0)]
  }

  function BindAttributesCalls(bs: seq<AttributeBinding>): seq<Call>
    decreases |bs|
  {
    if bs == [] then [] else BindAttributesCalls(bs[..|bs| - 1]) + AttributeCalls(bs[|bs| - 1])
  }

  function BindUniformsEffect(us: seq<UniformBinding>): Effect
    decreases |us|
  {
    if us == [] then Effect([], None) else Then(BindUniformsEffect(us[..|us| - 1]), UniformEffect(us[|us| - 1]))
  }

  /** Bind: every attribute binding in list order, then every uniform binding. */
  function BindEffect(cmd: RenderCommand): Effect {
    Then(Effect(BindAttributesCalls(cmd.attributeBindings), None), BindUniformsEffect(cmd.uniformBindings))
  }

  function DrawCall(cmd: RenderCommand): Call {
    DrawArrays(ToGL(cmd.primitiveType), 0, AsGLint(cmd.numVertices))
  }

  function DisableCalls(bs: seq<AttributeBinding>): seq<Call>
    decreases |bs|
  {
    if bs == [] then [] else DisableCalls(bs[..|bs| - 1]) + [DisableVertexAttribArray(bs[|bs| - 1].attributeHndl)]
  }

  /** Unbind: disable every attribute array of the command, then unbind the array buffer. */
  function UnbindCalls(cmd: RenderCommand): seq<Call> {
    DisableCalls(cmd.attributeBindings) + [BindBuffer(GL_ARRAY_BUFFER, 0)]
  }

  /** Execute: bind, draw, unbind; a bad uniform arity stops it inside bind. */
  function ExecuteEffect(cmd: RenderCommand): Effect {
    Then(BindEffect(cmd), Effect([DrawCall(cmd)] + UnbindCalls(cmd), None))
  }

  /** The attribute locations a list of bindings refers to. */
  function Locations(bs: seq<AttributeBinding>): set<u32> {
    set b | b in bs :: b.attributeHndl
  }

  /** The draw calls among `calls`, in order. */
  function Draws(calls: seq<Call>): seq<Call>
    decreases |calls|
  {
    if calls == [] then []
    else Draws(calls[..|calls| - 1]) + (if calls[|calls| - 1].DrawArrays? then [calls[|calls| - 1]] else [])
  }

  // ---------------------------------------------------------------------
  // Lemmas about the execution protocol

  lemma LocationsSnoc(bs: seq<AttributeBinding>, b: AttributeBinding)
    ensures Locations(bs + [b]) == Locations(bs) + {b.attributeHndl}
  {
    assert forall x :: x in bs + [b] <==> x in bs || x == b;
  }

  lemma {:induction false} DrawsAppend(a: seq<Call>, b: seq<Call>)
    ensures Draws(a + b) == Draws(a) + Draws(b)
    decreases |b|
  {
    if b == [] {
      assert a + b == a;
    } else {
      var b' := b[..|b| - 1];
      assert (a + b)[..|a + b| - 1] == a + b';
      assert (a + b)[|a + b| - 1] == b[|b| - 1];
      DrawsAppend(a, b');
    }
  }

  lemma {:induction false} NoDraws(calls: seq<Call>)
    requires forall i | 0 <= i < |calls| :: !calls[i].DrawArrays?
    ensures Draws(calls) == []
    decreases |calls|
  {
    if calls != [] {
      NoDraws(calls[..|calls| - 1]);
    }
  }

  /** One attribute binding enables its location, binds its buffer and
      records its layout, which therefore reads from its own buffer. */
  lemma RunAttributeCalls(s: DeviceState, b: AttributeBinding)
    ensures Run(s, AttributeCalls(b)) == s.(enabledAttribs := s.enabledAttribs + {b.attributeHndl},
                                            arrayBuffer := b.dataBufferHndl,
                                            attribPointers := s.attribPointers[b.attributeHndl := PointerOf(b)])
  {
    var enable := EnableVertexAttribArray(b.attributeHndl);
    var bind := BindBuffer(GL_ARRAY_BUFFER, b.dataBufferHndl);
    var pointer := VertexAttribPointer(b.attributeHndl, AsGLint(b.numComponents), GL_FLOAT, false, 0, 0);
    RunThree(s, enable, bind, pointer);
    var s1 := s.(enabledAttribs := s.enabledAttribs + {b.attributeHndl});
    assert Step(s, enable) == s1;
    var s2 := s1.(arrayBuffer := b.dataBufferHndl);
    assert Step(s1, bind) == s2;
  }

  /** Disabling a list of attribute arrays removes exactly their locations
      from the enabled set and changes nothing else. */
  lemma {:induction false} DisableCallsState(s: DeviceState, bs: seq<AttributeBinding>)
    ensures Run(s, DisableCalls(bs)) == s.(enabledAttribs := s.enabledAttribs - Locations(bs))
    ensures Draws(DisableCalls(bs)) == []
    decreases |bs|
  {
    if bs != [] {
      var bs' := bs[..|bs| - 1];
      var b := bs[|bs| - 1];
      assert bs == bs' + [b];
      DisableCallsState(s, bs');
      LocationsSnoc(bs', b);
      RunSnoc(s, DisableCalls(bs'), DisableVertexAttribArray(b.attributeHndl));
      DrawsAppend(DisableCalls(bs'), [DisableVertexAttribArray(b.attributeHndl)]);
      NoDraws([DisableVertexAttribArray(b.attributeHndl)]);
    }
  }

  /** The attribute part of bind enables every location of the list, leaves
      the array buffer holding the last binding's buffer, and changes nothing
      but those and the vertex layouts. */
  lemma {:induction false} BindAttributesState(s: DeviceState, bs: seq<AttributeBinding>)
    ensures var t := Run(s, BindAttributesCalls(bs));
      && t.enabledAttribs == s.enabledAttribs + Locations(bs)
      && t.arrayBuffer == (if bs == [] then s.arrayBuffer else bs[|bs| - 1].dataBufferHndl)
      && t == s.(enabledAttribs := t.enabledAttribs, arrayBuffer := t.arrayBuffer, attribPointers := t.attribPointers)
    ensures Draws(BindAttributesCalls(bs)) == []
    decreases |bs|
  {
    if bs != [] {
      var bs' := bs[..|bs| - 1];
      var b := bs[|bs| - 1];
      assert bs == bs' + [b];
      var pre := BindAttributesCalls(bs');
      assert BindAttributesCalls(bs) == pre + AttributeCalls(b);
      BindAttributesState(s, bs');
      LocationsSnoc(bs', b);
      var m := Run(s, pre);
      RunAppend(s, pre, AttributeCalls(b));
      RunAttributeCalls(m, b);
      DrawsAppend(pre, AttributeCalls(b));
      NoDraws(AttributeCalls(b));
    }
  }

  /** No later binding of `bs` names the location of binding `i`. */
  predicate LastNaming(bs: seq<AttributeBinding>, i: nat)
    requires i < |bs|
  {
    forall j | i < j < |bs| :: bs[j].attributeHndl != bs[i].attributeHndl
  }

  /** The layouts `after` holds once the bindings `bs` were applied to the
      layouts `before`: the named locations are added, the others keep their
      layout, and each named location holds the layout of the last binding
      naming it. */
  predicate RecordsLayouts(before: map<u32, AttribPointer>, after: map<u32, AttribPointer>, bs: seq<AttributeBinding>) {
    && after.Keys == before.Keys + Locations(bs)
    && (forall k | k in before && k !in Locations(bs) :: after[k] == before[k])
    && (forall i | 0 <= i < |bs| && LastNaming(bs, i) :: after[bs[i].attributeHndl] == PointerOf(bs[i]))
  }

  /** One more binding overwrites the layout of its own location only. */
  lemma LayoutsSnoc(before: map<u32, AttribPointer>, m: map<u32, AttribPointer>, bs: seq<AttributeBinding>, b: AttributeBinding)
    requires RecordsLayouts(before, m, bs)
    ensures RecordsLayouts(before, m[b.attributeHndl := PointerOf(b)], bs + [b])
  {
    var bs1 := bs + [b];
    var t := m[b.attributeHndl := PointerOf(b)];
    LocationsSnoc(bs, b);
    forall i | 0 <= i < |bs1| && LastNaming(bs1, i)
      ensures t[bs1[i].attributeHndl] == PointerOf(bs1[i])
    {
      if i < |bs| {
        assert bs1[i] == bs[i];
        assert bs1[|bs|] == b;
        assert LastNaming(bs, i) by {
          forall j | i < j < |bs|
            ensures bs[j].attributeHndl != bs[i].attributeHndl
          {
            assert bs1[j] == bs[j];
          }
        }
      }
    }
  }

  /** For each location, the layout recorded by bind is that of the last
      binding naming it, read from that binding's buffer; locations the list
      does not name keep their layout. */
  lemma {:induction false} BindAttributesLayouts(s: DeviceState, bs: seq<AttributeBinding>)
    ensures RecordsLayouts(s.attribPointers, Run(s, BindAttributesCalls(bs)).attribPointers, bs)
    decreases |bs|
  {
    if bs != [] {
      var bs' := bs[..|bs| - 1];
      var b := bs[|bs| - 1];
      assert bs == bs' + [b];
      BindAttributesLayouts(s, bs');
      RunAppend(s, BindAttributesCalls(bs'), AttributeCalls(b));
      RunAttributeCalls(Run(s, BindAttributesCalls(bs')), b);
      LayoutsSnoc(s.attribPointers, Run(s, BindAttributesCalls(bs')).attribPointers, bs', b);
    }
  }

  /** A payload of arity 1..4 issues one call, which sets that uniform. */
  lemma RunUniformEffect(s: DeviceState, u: UniformBinding)
    requires 1 <= Arity(u.data) <= 4
    ensures Run(s, UniformEffect(u).calls) == SetUniform(s, u.handle, ValueOf(u.data))
    ensures Draws(UniformEffect(u).calls) == []
  {
    UniformCallUploadsPayload(s, u);
    var c := UniformCall(u).value;
    assert UniformEffect(u).calls == [c];
    RunSnoc(s, [], c);
    assert [] + [c] == [c];
    NoDraws([c]);
  }

  /** One uniform binding issues its call iff its arity is 1..4, and
      otherwise issues nothing and fails with InvalidArity. */
  lemma UniformEffectOutcome(u: UniformBinding)
    ensures var e := UniformEffect(u);
      && (e.failure.None? <==> 1 <= Arity(u.data) <= 4)
      && (e.failure.Some? ==> e.failure == Some(InvalidArity) && e.calls == [])
      && Draws(e.calls) == []
  {
    if 1 <= Arity(u.data) <= 4 {
      RunUniformEffect(Initial, u);
    }
  }

  /** Every payload of `us` has an arity `uniform{n}` accepts. */
  predicate AritiesAccepted(us: seq<UniformBinding>) {
    forall i | 0 <= i < |us| :: 1 <= Arity(us[i].data) <= 4
  }

  lemma AritiesAcceptedSnoc(us: seq<UniformBinding>, u: UniformBinding)
    ensures AritiesAccepted(us + [u]) <==> AritiesAccepted(us) && 1 <= Arity(u.data) <= 4
  {
    assert forall i | 0 <= i < |us| :: (us + [u])[i] == us[i];
    assert (us + [u])[|us|] == u;
  }

  /** The uniform part of bind completes iff every payload has arity 1..4,
      and otherwise fails with InvalidArity; it never draws. */
  lemma {:induction false} BindUniformsOutcome(us: seq<UniformBinding>)
    ensures var e := BindUniformsEffect(us);
      && (e.failure.None? <==> AritiesAccepted(us))
      && (e.failure.Some? ==> e.failure == Some(InvalidArity))
      && Draws(e.calls) == []
    decreases |us|
  {
    if us != [] {
      var us' := us[..|us| - 1];
      var u := us[|us| - 1];
      assert us == us' + [u];
      AritiesAcceptedSnoc(us', u);
      BindUniformsOutcome(us');
      var prev := BindUniformsEffect(us');
      var post := UniformEffect(u);
      UniformEffectOutcome(u);
      assert BindUniformsEffect(us) == Then(prev, post);
      if prev.failure.None? {
        DrawsAppend(prev.calls, post.calls);
      }
    }
  }

  /** The uniform part of bind changes nothing but uniform values. */
  lemma {:induction false} BindUniformsFrame(s: DeviceState, us: seq<UniformBinding>)
    ensures var t := Run(s, BindUniformsEffect(us).calls); t == s.(uniforms := t.uniforms)
    decreases |us|
  {
    if us != [] {
      var us' := us[..|us| - 1];
      var u := us[|us| - 1];
      BindUniformsFrame(s, us');
      var prev := BindUniformsEffect(us');
      if prev.failure.None? && 1 <= Arity(u.data) <= 4 {
        var post := UniformEffect(u).calls;
        assert BindUniformsEffect(us).calls == prev.calls + post;
        var m := Run(s, prev.calls);
        RunAppend(s, prev.calls, post);
        RunUniformEffect(m, u);
      } else if prev.failure.None? {
        assert BindUniformsEffect(us).calls == prev.calls + [];
        assert prev.calls + [] == prev.calls;
      }
    }
  }

  /** When the uniform part of bind completes, each location holds, in the
      current program, the payload of the last binding naming it. */
  lemma {:induction false} BindUniformsValues(s: DeviceState, us: seq<UniformBinding>)
    requires BindUniformsEffect(us).failure.None?
    ensures var t := Run(s, BindUniformsEffect(us).calls);
      forall i | 0 <= i < |us| && (forall j | i < j < |us| :: us[j].handle != us[i].handle) ::
        (s.currentProgram, us[i].handle) in t.uniforms &&
        t.uniforms[(s.currentProgram, us[i].handle)] == ValueOf(us[i].data)
    decreases |us|
  {
    if us != [] {
      var us' := us[..|us| - 1];
      var u := us[|us| - 1];
      assert us == us' + [u];
      var prev := BindUniformsEffect(us');
      var post := UniformEffect(u).calls;
      assert BindUniformsEffect(us).calls == prev.calls + post;
      BindUniformsValues(s, us');
      BindUniformsFrame(s, us');
      var m := Run(s, prev.calls);
      RunAppend(s, prev.calls, post);
      RunUniformEffect(m, u);
      var t := Run(s, BindUniformsEffect(us).calls);
      forall i | 0 <= i < |us| && (forall j | i < j < |us| :: us[j].handle != us[i].handle)
        ensures (s.currentProgram, us[i].handle) in t.uniforms
        ensures t.uniforms[(s.currentProgram, us[i].handle)] == ValueOf(us[i].data)
      {
        if i < |us'| {
          assert us'[i] == us[i];
          assert forall j | i < j < |us'| :: us'[j] == us[j];
        }
      }
    }
  }

  /** The uniform keys a list of bindings names in `program`. */
  function UniformKeys(program: nat, us: seq<UniformBinding>): set<(nat, i32)> {
    set u | u in us :: (program, u.handle)
  }

  lemma UniformKeysSnoc(program: nat, us: seq<UniformBinding>, u: UniformBinding)
    ensures UniformKeys(program, us + [u]) == UniformKeys(program, us) + {(program, u.handle)}
  {
    assert forall x :: x in us + [u] <==> x in us || x == u;
  }

  /** The uniform values `after` holds once the bindings `us` were uploaded
      in `program` over the values `before`: the keys of `program` that the
      list names are added, and every other key, of this program or of
      another, keeps its value. */
  predicate RecordsUniformKeys(before: map<(nat, i32), UniformValue>, after: map<(nat, i32), UniformValue>,
                               program: nat, us: seq<UniformBinding>) {
    && after.Keys == before.Keys + UniformKeys(program, us)
    && forall k | k in before && k !in UniformKeys(program, us) :: after[k] == before[k]
  }

  /** One more upload adds its own key only. */
  lemma UniformKeysStep(before: map<(nat, i32), UniformValue>, m: map<(nat, i32), UniformValue>,
                        program: nat, us: seq<UniformBinding>, u: UniformBinding, v: UniformValue)
    requires RecordsUniformKeys(before, m, program, us)
    ensures RecordsUniformKeys(before, m[(program, u.handle) := v], program, us + [u])
  {
    UniformKeysSnoc(program, us, u);
  }

  /** A completed uniform pass sets the keys of its own locations in the
      current program and leaves every other uniform value as it was. */
  lemma {:induction false} BindUniformsKeys(s: DeviceState, us: seq<UniformBinding>)
    requires BindUniformsEffect(us).failure.None?
    ensures RecordsUniformKeys(s.uniforms, Run(s, BindUniformsEffect(us).calls).uniforms, s.currentProgram, us)
    decreases |us|
  {
    if us == [] {
      assert UniformKeys(s.currentProgram, us) == {};
    } else {
      var us' := us[..|us| - 1];
      var u := us[|us| - 1];
      assert us == us' + [u];
      var prev := BindUniformsEffect(us');
      var post := UniformEffect(u).calls;
      assert BindUniformsEffect(us).calls == prev.calls + post;
      BindUniformsKeys(s, us');
      BindUniformsFrame(s, us');
      var m := Run(s, prev.calls);
      RunAppend(s, prev.calls, post);
      RunUniformEffect(m, u);
      UniformKeysStep(s.uniforms, m.uniforms, s.currentProgram, us', u, ValueOf(u.data));
    }
  }

  /** Bind enables the command's locations and touches only the array
      buffer, the vertex layouts and the uniform values besides. */
  lemma BindState(s: DeviceState, cmd: RenderCommand)
    ensures var b := Run(s, BindEffect(cmd).calls);
      && b.enabledAttribs == s.enabledAttribs + Locations(cmd.attributeBindings)
      && b == s.(enabledAttribs := b.enabledAttribs, arrayBuffer := b.arrayBuffer,
                 attribPointers := b.attribPointers, uniforms := b.uniforms)
  {
    var attrs := BindAttributesCalls(cmd.attributeBindings);
    var uni := BindUniformsEffect(cmd.uniformBindings);
    assert BindEffect(cmd).calls == attrs + uni.calls;
    BindAttributesState(s, cmd.attributeBindings);
    var a := Run(s, attrs);
    BindUniformsFrame(a, cmd.uniformBindings);
    RunAppend(s, attrs, uni.calls);
  }

  /** Bind issues no draw call. */
  lemma BindDrawsNothing(cmd: RenderCommand)
    ensures Draws(BindEffect(cmd).calls) == []
  {
    var attrs := BindAttributesCalls(cmd.attributeBindings);
    var uni := BindUniformsEffect(cmd.uniformBindings);
    assert BindEffect(cmd).calls == attrs + uni.calls;
    BindAttributesState(Initial, cmd.attributeBindings);
    BindUniformsOutcome(cmd.uniformBindings);
    DrawsAppend(attrs, uni.calls);
  }

  /** The draw leaves the state alone; unbind disables the command's
      locations and unbinds the array buffer. */
  lemma RunDrawUnbind(b: DeviceState, cmd: RenderCommand)
    ensures Run(b, [DrawCall(cmd)] + UnbindCalls(cmd))
         == b.(enabledAttribs := b.enabledAttribs - Locations(cmd.attributeBindings), arrayBuffer := 0)
  {
    var dis := DisableCalls(cmd.attributeBindings);
    var unbind := [BindBuffer(GL_ARRAY_BUFFER, 0)];
    assert [DrawCall(cmd)] + UnbindCalls(cmd) == [DrawCall(cmd)] + dis + unbind;
    RunSnoc(b, [], DrawCall(cmd));
    assert Run(b, [DrawCall(cmd)]) == b;
    RunAppend(b, [DrawCall(cmd)], dis);
    DisableCallsState(b, cmd.attributeBindings);
    RunSnoc(b, [DrawCall(cmd)] + dis, BindBuffer(GL_ARRAY_BUFFER, 0));
  }

  /** The draw, then unbind, hold exactly one draw call: the command's own. */
  lemma DrawUnbindDraws(cmd: RenderCommand)
    ensures Draws([DrawCall(cmd)] + UnbindCalls(cmd)) == [DrawCall(cmd)]
  {
    var dis := DisableCalls(cmd.attributeBindings);
    DisableCallsState(Initial, cmd.attributeBindings);
    NoDraws([BindBuffer(GL_ARRAY_BUFFER, 0)]);
    DrawsAppend(dis, [BindBuffer(GL_ARRAY_BUFFER, 0)]);
    DrawsAppend([DrawCall(cmd)], UnbindCalls(cmd));
    assert Draws([DrawCall(cmd)]) == [DrawCall(cmd)] by {
      assert [DrawCall(cmd)][..0] == [];
    }
  }

  /** After a command executes, the attribute arrays it enabled are disabled
      again (the enabled set is what it was, minus the command's locations),
      the array buffer is unbound, and the uniform values and vertex layouts
      set during bind stay as bind left them. Nothing else changes. */
  lemma ExecuteLeavesNothingBound(s: DeviceState, cmd: RenderCommand)
    requires ExecuteEffect(cmd).failure.None?
    ensures var t := Run(s, ExecuteEffect(cmd).calls);
      var bound := Run(s, BindEffect(cmd).calls);
      && t.enabledAttribs == s.enabledAttribs - Locations(cmd.attributeBindings)
      && t.arrayBuffer == 0
      && t == s.(enabledAttribs := t.enabledAttribs, arrayBuffer := 0,
                 attribPointers := bound.attribPointers, uniforms := bound.uniforms)
  {
    var bind := BindEffect(cmd).calls;
    var tail := [DrawCall(cmd)] + UnbindCalls(cmd);
    assert ExecuteEffect(cmd).calls == bind + tail;
    RunAppend(s, bind, tail);
    BindState(s, cmd);
    var bound := Run(s, bind);
    RunDrawUnbind(bound, cmd);
  }

  /** Execute fails iff some uniform payload has arity 0 or more than 4, and
      then it fails with InvalidArity inside bind, before any draw, with the
      arrays it had enabled still enabled. When it completes it draws exactly
      once, with the command's mode and vertex count. */
  lemma ExecuteDrawsOnce(s: DeviceState, cmd: RenderCommand)
    ensures var e := ExecuteEffect(cmd);
      && (e.failure.None? <==> forall u | u in cmd.uniformBindings :: 1 <= Arity(u.data) <= 4)
      && (e.failure.Some? ==>
            e.failure == Some(InvalidArity) && Draws(e.calls) == [] &&
            Locations(cmd.attributeBindings) <= Run(s, e.calls).enabledAttribs)
      && (e.failure.None? ==> Draws(e.calls) == [DrawCall(cmd)])
  {
    var bind := BindEffect(cmd);
    var us := cmd.uniformBindings;
    assert bind.failure == BindUniformsEffect(us).failure;
    BindUniformsOutcome(us);
    assert AritiesAccepted(us) <==> (forall u | u in us :: 1 <= Arity(u.data) <= 4);
    BindDrawsNothing(cmd);
    if bind.failure.Some? {
      assert ExecuteEffect(cmd) == bind;
      BindState(s, cmd);
    } else {
      var tail := [DrawCall(cmd)] + UnbindCalls(cmd);
      assert ExecuteEffect(cmd).calls == bind.calls + tail;
      DrawsAppend(bind.calls, tail);
      DrawUnbindDraws(cmd);
    }
  }

  // ---------------------------------------------------------------------
  // The execution protocol on a device

  /** Issues `BindEffect(cmd)`: attribute bindings in order, then uniform bindings. */
  method Bind(dev: Device, cmd: RenderCommand) returns (failure: Option<Panic>)
    modifies dev
    ensures dev.trace == old(dev.trace) + BindEffect(cmd).calls
    ensures dev.state == Run(old(dev.state), BindEffect(cmd).calls)
    ensures failure == BindEffect(cmd).failure
    ensures dev.nextName == old(dev.nextName)
  {
    BindAttributes(dev, cmd.attributeBindings);
    failure := BindUniforms(dev, cmd.uniformBindings);
    ghost var attrCalls := BindAttributesCalls(cmd.attributeBindings);
    ghost var uniformCalls := BindUniformsEffect(cmd.uniformBindings).calls;
    assert BindEffect(cmd).calls == attrCalls + uniformCalls;
    AppendAssoc(old(dev.trace), attrCalls, uniformCalls);
    RunAppend(old(dev.state), attrCalls, uniformCalls);
  }

  /** The attribute loop of bind. */
  method BindAttributes(dev: Device, attrs: seq<AttributeBinding>)
    modifies dev
    ensures dev.trace == old(dev.trace) + BindAttributesCalls(attrs)
    ensures dev.state == Run(old(dev.state), BindAttributesCalls(attrs))
    ensures dev.nextName == old(dev.nextName)
  {
    for i := 0 to |attrs|
      invariant dev.trace == old(dev.trace) + BindAttributesCalls(attrs[..i])
      invariant dev.nextName == old(dev.nextName)
      invariant dev.state == Run(old(dev.state), BindAttributesCalls(attrs[..i]))
    {
      ghost var prev := BindAttributesCalls(attrs[..i]);
      BindAttributeArray(dev, attrs[i]);
      assert attrs[..i + 1][..i] == attrs[..i];
      assert BindAttributesCalls(attrs[..i + 1]) == prev + AttributeCalls(attrs[i]);
      AppendAssoc(old(dev.trace), prev, AttributeCalls(attrs[i]));
      RunAppend(old(dev.state), prev, AttributeCalls(attrs[i]));
    }
    assert attrs[..|attrs|] == attrs;
  }

  /** The uniform loop of bind: stops at the first payload of bad arity. */
  method BindUniforms(dev: Device, us: seq<UniformBinding>) returns (failure: Option<Panic>)
    modifies dev
    ensures dev.trace == old(dev.trace) + BindUniformsEffect(us).calls
    ensures dev.state == Run(old(dev.state), BindUniformsEffect(us).calls)
    ensures failure == BindUniformsEffect(us).failure
    ensures dev.nextName == old(dev.nextName)
  {
    for i := 0 to |us|
      invariant BindUniformsEffect(us[..i]).failure.None?
      invariant dev.trace == old(dev.trace) + BindUniformsEffect(us[..i]).calls
      invariant dev.nextName == old(dev.nextName)
      invariant dev.state == Run(old(dev.state), BindUniformsEffect(us[..i]).calls)
    {
      ghost var prev := BindUniformsEffect(us[..i]);
      failure := BindUniformValue(dev, us[i]);
      assert us[..i + 1][..i] == us[..i];
      assert BindUniformsEffect(us[..i + 1]) == Then(prev, UniformEffect(us[i]));
      if failure.Some? {
        BindUniformsPrefixFails(us, i + 1);
        assert UniformEffect(us[i]).calls == [];
        assert prev.calls + [] == prev.calls;
        return;
      }
      AppendAssoc(old(dev.trace), prev.calls, UniformEffect(us[i]).calls);
      RunAppend(old(dev.state), prev.calls, UniformEffect(us[i]).calls);
    }
    assert us[..|us|] == us;
    failure := None;
  }

  /** One iteration of bind's attribute loop: enable the location, bind the
      buffer, describe the layout. */
  method BindAttributeArray(dev: Device, b: AttributeBinding)
    modifies dev
    ensures dev.trace == old(dev.trace) + AttributeCalls(b)
    ensures dev.state == Run(old(dev.state), AttributeCalls(b))
    ensures dev.nextName == old(dev.nextName)
  {
    dev.Issue(EnableVertexAttribArray(b.attributeHndl));
    dev.Issue(BindBuffer(GL_ARRAY_BUFFER, b.dataBufferHndl));
    dev.Issue(VertexAttribPointer(b.attributeHndl, AsGLint(b.numComponents), GL_FLOAT, false, 0, 0));
    RunThree(old(dev.state), EnableVertexAttribArray(b.attributeHndl), BindBuffer(GL_ARRAY_BUFFER, b.dataBufferHndl),
             VertexAttribPointer(b.attributeHndl, AsGLint(b.numComponents), GL_FLOAT, false, 0, 0));
  }

  /** One iteration of bind's uniform loop: dispatch on the payload's type. */
  method BindUniformValue(dev: Device, b: UniformBinding) returns (failure: Option<Panic>)
    modifies dev
    ensures dev.trace == old(dev.trace) + UniformEffect(b).calls
    ensures dev.state == Run(old(dev.state), UniformEffect(b).calls)
    ensures failure == UniformEffect(b).failure
    ensures dev.nextName == old(dev.nextName)
  {
    match b.data {
      case Integer(xs) => failure := BindIntegers(dev, b.handle, xs);
      case Float(xs) => failure := BindFloats(dev, b.handle, xs);
    }
  }

  /** A uniform failure at some prefix is the failure of the whole list. */
  lemma {:induction false} BindUniformsPrefixFails(us: seq<UniformBinding>, k: nat)
    requires k <= |us|
    requires BindUniformsEffect(us[..k]).failure.Some?
    ensures BindUniformsEffect(us) == BindUniformsEffect(us[..k])
    decreases |us| - k
  {
    if k < |us| {
      assert us[..k + 1][..k] == us[..k];
      BindUniformsPrefixFails(us, k + 1);
    } else {
      assert us[..k] == us;
    }
  }

  /** Dispatches an integer payload by its length to `uniform{n}i`. */
  method BindIntegers(dev: Device, uniformHndl: i32, data: seq<i32>) returns (failure: Option<Panic>)
    modifies dev
    ensures failure == UniformEffect(UniformBinding(uniformHndl, Integer(data))).failure
    ensures dev.trace == old(dev.trace) + UniformEffect(UniformBinding(uniformHndl, Integer(data))).calls
    ensures dev.state == Run(old(dev.state), UniformEffect(UniformBinding(uniformHndl, Integer(data))).calls)
    ensures dev.nextName == old(dev.nextName)
  {
    failure := None;
    match |data| {
      case 0 => failure := Some(InvalidArity);
      case 1 => dev.Issue(Uniform1i(uniformHndl, data[0]));
      case 2 => dev.Issue(Uniform2i(uniformHndl, data[0], data[1]));
      case 3 => dev.Issue(Uniform3i(uniformHndl, data[0], data[1], data[2]));
      case 4 => dev.Issue(Uniform4i(uniformHndl, data[0], data[1], data[2], data[3]));
      case _ => failure := Some(InvalidArity);
    }
    if failure.None? {
      RunOne(old(dev.state), IntegerUniformCall(uniformHndl, data).value);
    }
  }

  /** Dispatches a float payload by its length to `uniform{n}f`. */
  method BindFloats(dev: Device, uniformHndl: i32, data: seq<F32>) returns (failure: Option<Panic>)
    modifies dev
    ensures failure == UniformEffect(UniformBinding(uniformHndl, Float(data))).failure
    ensures dev.trace == old(dev.trace) + UniformEffect(UniformBinding(uniformHndl, Float(data))).calls
    ensures dev.state == Run(old(dev.state), UniformEffect(UniformBinding(uniformHndl, Float(data))).calls)
    ensures dev.nextName == old(dev.nextName)
  {
    failure := None;
    match |data| {
      case 0 => failure := Some(InvalidArity);
      case 1 => dev.Issue(Uniform1f(uniformHndl, data[0]));
      case 2 => dev.Issue(Uniform2f(uniformHndl, data[0], data[1]));
      case 3 => dev.Issue(Uniform3f(uniformHndl, data[0], data[1], data[2]));
      case 4 => dev.Issue(Uniform4f(uniformHndl, data[0], data[1], data[2], data[3]));
      case _ => failure := Some(InvalidArity);
    }
    if failure.None? {
      RunOne(old(dev.state), FloatUniformCall(uniformHndl, data).value);
    }
  }

  method Draw(dev: Device, cmd: RenderCommand)
    modifies dev
    ensures dev.trace == old(dev.trace) + [DrawCall(cmd)]
    ensures dev.state == old(dev.state)
    ensures dev.nextName == old(dev.nextName)
  {
    dev.IssueInert(DrawArrays(ToGL(cmd.primitiveType), 0, AsGLint(cmd.numVertices)));
  }

  method Unbind(dev: Device, cmd: RenderCommand)
    modifies dev
    ensures dev.trace == old(dev.trace) + UnbindCalls(cmd)
    ensures dev.state == Run(old(dev.state), UnbindCalls(cmd))
    ensures dev.nextName == old(dev.nextName)
  {
    var attrs := cmd.attributeBindings;
    for i := 0 to |attrs|
      invariant dev.trace == old(dev.trace) + DisableCalls(attrs[..i])
      invariant dev.nextName == old(dev.nextName)
      invariant dev.state == Run(old(dev.state), DisableCalls(attrs[..i]))
    {
      DisableSnoc(old(dev.state), attrs, i);
      dev.Issue(DisableVertexAttribArray(attrs[i].attributeHndl));
    }
    assert attrs[..|attrs|] == attrs;
    dev.Issue(BindBuffer(GL_ARRAY_BUFFER, 0));
    RunSnoc(old(dev.state), DisableCalls(attrs), BindBuffer(GL_ARRAY_BUFFER, 0));
  }

  /** One more attribute disabled extends the calls and the state by one step. */
  lemma DisableSnoc(s: DeviceState, attrs: seq<AttributeBinding>, i: nat)
    requires i < |attrs|
    ensures DisableCalls(attrs[..i + 1]) == DisableCalls(attrs[..i]) + [DisableVertexAttribArray(attrs[i].attributeHndl)]
    ensures Run(s, DisableCalls(attrs[..i + 1])) == Step(Run(s, DisableCalls(attrs[..i])), DisableVertexAttribArray(attrs[i].attributeHndl))
  {
    assert attrs[..i + 1][..i] == attrs[..i];
    RunSnoc(s, DisableCalls(attrs[..i]), DisableVertexAttribArray(attrs[i].attributeHndl));
  }

  /** `RenderCommand::Execute`: bind, draw, unbind. What the resulting state
      holds is stated by `ExecuteLeavesNothingBound` and `ExecuteDrawsOnce`. */
  method Execute(dev: Device, cmd: RenderCommand) returns (failure: Option<Panic>)
    modifies dev
    ensures dev.trace == old(dev.trace) + ExecuteEffect(cmd).calls
    ensures dev.state == Run(old(dev.state), ExecuteEffect(cmd).calls)
    ensures failure == ExecuteEffect(cmd).failure
    ensures dev.nextName == old(dev.nextName)
  {
    failure := Bind(dev, cmd);
    if failure.Some? {
      assert ExecuteEffect(cmd) == BindEffect(cmd);
      return;
    }
    ghost var bind := BindEffect(cmd).calls;
    ghost var bound := dev.state;
    Draw(dev, cmd);
    Unbind(dev, cmd);
    ExecuteTrace(old(dev.trace), old(dev.state), bound, dev.trace, dev.state, cmd);
  }

  /** Bind, then the draw and unbind, compose into `ExecuteEffect`. */
  lemma ExecuteTrace(before: seq<Call>, s: DeviceState, bound: DeviceState, after: seq<Call>, t: DeviceState, cmd: RenderCommand)
    requires BindEffect(cmd).failure.None?
    requires bound == Run(s, BindEffect(cmd).calls)
    requires after == before + BindEffect(cmd).calls + [DrawCall(cmd)] + UnbindCalls(cmd)
    requires t == Run(bound, UnbindCalls(cmd))
    ensures after == before + ExecuteEffect(cmd).calls
    ensures t == Run(s, ExecuteEffect(cmd).calls)
  {
    var bind := BindEffect(cmd).calls;
    var tail := [DrawCall(cmd)] + UnbindCalls(cmd);
    ExecuteCalls(cmd);
    AppendAssoc(before + bind, [DrawCall(cmd)], UnbindCalls(cmd));
    AppendAssoc(before, bind, tail);
    DrawThenUnbind(bound, cmd);
    RunAppend(s, bind, tail);
  }

  lemma ExecuteCalls(cmd: RenderCommand)
    requires BindEffect(cmd).failure.None?
    ensures ExecuteEffect(cmd).calls == BindEffect(cmd).calls + ([DrawCall(cmd)] + UnbindCalls(cmd))
  {
  }

  /** The draw does not change the state the unbind starts from. */
  lemma DrawThenUnbind(b: DeviceState, cmd: RenderCommand)
    ensures Run(b, [DrawCall(cmd)] + UnbindCalls(cmd)) == Run(b, UnbindCalls(cmd))
  {
    var d := DrawCall(cmd);
    StepInert(b, d);
    RunOne(b, d);
    RunAppend(b, [d], UnbindCalls(cmd));
  }

  // ---------------------------------------------------------------------
  // Device buffers

  datatype GPUBufferTarget = Array | ElementArray

  datatype GPUBufferUsage = Stream | Static | Dynamic

  datatype GPUBuffer = GPUBuffer(handle: nat, target: GPUBufferTarget, usage: GPUBufferUsage)

  /** The two buffer targets map to the two distinct ES 2.0 binding points. */
  function TargetToGL(t: GPUBufferTarget): (e: u32)
    ensures e == GL_ARRAY_BUFFER <==> t == Array
    ensures e == GL_ELEMENT_ARRAY_BUFFER <==> t == ElementArray
  {
    match t
    case Array => GL_ARRAY_BUFFER
    case ElementArray => GL_ELEMENT_ARRAY_BUFFER
  }

  /** The three usage hints map to three distinct ES 2.0 usage enums. */
  function UsageToGL(u: GPUBufferUsage): (e: u32)
    ensures e == GL_STREAM_DRAW <==> u == Stream
    ensures e == GL_STATIC_DRAW <==> u == Static
    ensures e == GL_DYNAMIC_DRAW <==> u == Dynamic
  {
    match u
    case Stream => GL_STREAM_DRAW
    case Static => GL_STATIC_DRAW
    case Dynamic => GL_DYNAMIC_DRAW
  }

  function NewBufferCalls(b: GPUBuffer, cpuData: seq<F32>): seq<Call> {
    [GenBuffer(b.handle), BindBuffer(TargetToGL(b.target), b.handle),
     BufferData(TargetToGL(b.target), cpuData, UsageToGL(b.usage))]
  }

  /** Creating a buffer with the next name leaves it bound to its target,
      holding the uploaded data under its usage hint; the other target's
      binding and all other state are untouched. */
  lemma NewBufferState(s: DeviceState, b: GPUBuffer, cpuData: seq<F32>)
    requires b.handle != 0
    ensures var t := Run(s, NewBufferCalls(b, cpuData));
      && BoundBuffer(t, TargetToGL(b.target)) == b.handle
      && t.bufferStores == s.bufferStores[b.handle := BufferStore(cpuData, UsageToGL(b.usage))]
      && (b.target == Array ==> t.elementArrayBuffer == s.elementArrayBuffer)
      && (b.target == ElementArray ==> t.arrayBuffer == s.arrayBuffer)
      && t == s.(arrayBuffer := t.arrayBuffer, elementArrayBuffer := t.elementArrayBuffer,
                 bufferStores := t.bufferStores)
  {
    var c := NewBufferCalls(b, cpuData);
    RunSnoc(s, [], c[0]);
    assert c[..1] == [c[0]];
    RunSnoc(s, c[..1], c[1]);
    assert c[..2] == c[..1] + [c[1]];
    RunSnoc(s, c[..2], c[2]);
    assert c == c[..2] + [c[2]];
  }

  /** `GPUBuffer::new`: generates a name, binds it to the target and uploads
      the data, leaving the buffer bound. */
  method NewGPUBuffer(dev: Device, cpuData: seq<F32>, target: GPUBufferTarget, usage: GPUBufferUsage)
    returns (buffer: GPUBuffer)
    modifies dev
    ensures buffer == GPUBuffer(old(dev.nextName), target, usage)
    ensures dev.trace == old(dev.trace) + NewBufferCalls(buffer, cpuData)
    ensures dev.state == Run(old(dev.state), NewBufferCalls(buffer, cpuData))
    ensures BoundBuffer(dev.state, TargetToGL(target)) == buffer.handle
    ensures dev.nextName == old(dev.nextName) + 1
  {
    var vbo := dev.nextName;
    dev.Issue(GenBuffer(vbo));
    var glTarget := TargetToGL(target);
    dev.Issue(BindBuffer(glTarget, vbo));
    dev.Issue(BufferData(glTarget, cpuData, UsageToGL(usage)));
    buffer := GPUBuffer(vbo, target, usage);
    RunThree(old(dev.state), GenBuffer(vbo), BindBuffer(glTarget, vbo), BufferData(glTarget, cpuData, UsageToGL(usage)));
    NewBufferState(old(dev.state), buffer, cpuData);
  }

  // ---------------------------------------------------------------------
  // Shader stages

  datatype ShaderStage = ShaderStage(program: nat, fragShader: nat, vertShader: nat)

  /** `ShaderStage::BindAttribute`, given the location the driver's attribute
      lookup returned. The location is reinterpreted as unsigned and rejected
      only when it equals GL_INVALID_OPERATION; the binding stores the
      buffer's handle and the component count unchanged. */
  function BindAttribute(attribLocation: i32, buffer: GPUBuffer, componentsPerVertex: u32)
    : (r: Result<AttributeBinding, Panic>)
    ensures r.Failure? <==> attribLocation == GL_INVALID_OPERATION
    ensures r.Failure? ==> r.error == BindingNotFound
    ensures r.Success? ==>
      AsGLint(r.value.attributeHndl) == attribLocation &&
      r.value.dataBufferHndl == buffer.handle &&
      r.value.numComponents == componentsPerVertex
  {
    var attributeHndl := AsGLuint(attribLocation);
    if attributeHndl == GL_INVALID_OPERATION then Failure(BindingNotFound)
    else Success(AttributeBinding(attributeHndl, buffer.handle, componentsPerVertex))
  }

  /** The "not found" location -1 passes the check and becomes location
      0xFFFF_FFFF. */
  lemma BindAttributeAcceptsNotFound(buffer: GPUBuffer, componentsPerVertex: u32)
    ensures BindAttribute(-1, buffer, componentsPerVertex)
         == Success(AttributeBinding(0xFFFF_FFFF, buffer.handle, componentsPerVertex))
  {
  }

  /** `ShaderStage::BindUniform`, given the location the driver's uniform
      lookup returned: fails iff it is negative, otherwise keeps an
      integer-typed copy of the payload, whatever its length. */
  function BindUniform(uniformLocation: i32, uniformData: seq<i32>): (r: Result<UniformBinding, Panic>)
    ensures r.Failure? <==> uniformLocation < 0
    ensures r.Failure? ==> r.error == BindingNotFound
    ensures r.Success? ==> r.value.handle == uniformLocation && ValueOf(r.value.data) == Ints(uniformData)
  {
    if uniformLocation < 0 then Failure(BindingNotFound)
    else Success(UniformBinding(uniformLocation, Integer(uniformData)))
  }

  /** The arity of a uniform payload is checked when a command using it is
      executed, not when the binding is made. */
  lemma {:induction false} ArityCheckedAtExecute(
    uniformLocation: i32, uniformData: seq<i32>, attrs: seq<AttributeBinding>, p: PrimitivesType, n: u32)
    requires uniformLocation >= 0
    ensures BindUniform(uniformLocation, uniformData).Success?
    ensures var cmd := RenderCommand(attrs, [BindUniform(uniformLocation, uniformData).value], p, n);
      ExecuteEffect(cmd).failure.None? <==> 1 <= |uniformData| <= 4
  {
    var u := BindUniform(uniformLocation, uniformData).value;
    assert [u][..0] == [];
    assert BindUniformsEffect([u]) == Then(BindUniformsEffect([]), UniformEffect(u));
    UniformEffectOutcome(u);
  }

  /** The compile status a shader and the link status the program report;
      they only decide which diagnostics are queried. */
  datatype BuildStatus = BuildStatus(fragCompiles: bool, vertCompiles: bool, links: bool)

  function VertPath(path: string): string { path + ".vert" }
  function FragPath(path: string): string { path + ".frag" }

  function ShaderCalls(shader: nat, shaderType: u32, source: string, compiled: bool): seq<Call> {
    [CreateShader(shaderType, shader), ShaderSource(shader, source), CompileShader(shader),
     GetShaderiv(shader, GL_COMPILE_STATUS)]
    + (if compiled then [] else [GetShaderInfoLog(shader)])
  }

  /** After the vertex shader: attach it, link, query the status (and the
      log if linking failed), make the program current. */
  function LinkCalls(stage: ShaderStage, links: bool): seq<Call> {
    [AttachShader(stage.program, stage.vertShader), LinkProgram(stage.program),
     GetProgramiv(stage.program, GL_LINK_STATUS)]
    + (if links then [] else [GetProgramInfoLog(stage.program)])
    + [UseProgram(stage.program)]
  }

  function StageCalls(stage: ShaderStage, fragSource: string, vertSource: string, status: BuildStatus): seq<Call> {
    [CreateProgram(stage.program)]
    + ShaderCalls(stage.fragShader, GL_FRAGMENT_SHADER, fragSource, status.fragCompiles)
    + [AttachShader(stage.program, stage.fragShader)]
    + ShaderCalls(stage.vertShader, GL_VERTEX_SHADER, vertSource, status.vertCompiles)
    + LinkCalls(stage, status.links)
  }

  /** The link part of `LoadShaderStage`: it only makes the program current. */
  method LinkStage(dev: Device, stage: ShaderStage, links: bool)
    modifies dev
    ensures dev.trace == old(dev.trace) + LinkCalls(stage, links)
    ensures dev.state == old(dev.state).(currentProgram := stage.program)
    ensures dev.nextName == old(dev.nextName)
  {
    dev.IssueInert(AttachShader(stage.program, stage.vertShader));
    dev.IssueInert(LinkProgram(stage.program));
    dev.IssueInert(GetProgramiv(stage.program, GL_LINK_STATUS));
    ghost var queried := dev.trace;
    if !links {
      dev.IssueInert(GetProgramInfoLog(stage.program));
    }
    assert dev.trace == queried + (if links then [] else [GetProgramInfoLog(stage.program)]);
    dev.Issue(UseProgram(stage.program));
  }

  lemma AppendAssoc(a: seq<Call>, b: seq<Call>, c: seq<Call>)
    ensures a + (b + c) == a + b + c
  {
  }

  /** The shaders compiled by `calls`, in order. */
  function Compiled(calls: seq<Call>): seq<nat>
    decreases |calls|
  {
    if calls == [] then []
    else Compiled(calls[..|calls| - 1]) + (if calls[|calls| - 1].CompileShader? then [calls[|calls| - 1].shader] else [])
  }

  lemma {:induction false} CompiledAppend(a: seq<Call>, b: seq<Call>)
    ensures Compiled(a + b) == Compiled(a) + Compiled(b)
    decreases |b|
  {
    if b == [] {
      assert a + b == a;
    } else {
      assert (a + b)[..|a + b| - 1] == a + b[..|b| - 1];
      CompiledAppend(a, b[..|b| - 1]);
    }
  }

  lemma {:induction false} NoCompiles(calls: seq<Call>)
    requires forall i | 0 <= i < |calls| :: !calls[i].CompileShader?
    ensures Compiled(calls) == []
    decreases |calls|
  {
    if calls != [] {
      NoCompiles(calls[..|calls| - 1]);
    }
  }

  /** Loading one shader compiles exactly that shader, once. */
  lemma CompiledShaderCalls(shader: nat, shaderType: u32, source: string, compiled: bool)
    ensures Compiled(ShaderCalls(shader, shaderType, source, compiled)) == [shader]
  {
    var pre := [CreateShader(shaderType, shader), ShaderSource(shader, source)];
    var compile := [CompileShader(shader)];
    var post := [GetShaderiv(shader, GL_COMPILE_STATUS)] + (if compiled then [] else [GetShaderInfoLog(shader)]);
    assert ShaderCalls(shader, shaderType, source, compiled) == pre + compile + post;
    NoCompiles(pre);
    NoCompiles(post);
    assert Compiled(compile) == [shader] by {
      assert compile[..0] == [];
    }
    CompiledAppend(pre, compile);
    CompiledAppend(pre + compile, post);
  }

  /** Calls around `b` that compile nothing add nothing to its compiles. */
  lemma CompiledAround(a: seq<Call>, b: seq<Call>, c: seq<Call>)
    requires Compiled(a) == [] && Compiled(c) == []
    ensures Compiled(a + b + c) == Compiled(b)
  {
    CompiledAppend(a, b);
    CompiledAppend(a + b, c);
  }

  /** Up to the vertex shader, a stage compiles the fragment shader only. */
  lemma FrontCompiles(stage: ShaderStage, fragSource: string, fragCompiles: bool)
    ensures Compiled([CreateProgram(stage.program)]
                     + ShaderCalls(stage.fragShader, GL_FRAGMENT_SHADER, fragSource, fragCompiles)
                     + [AttachShader(stage.program, stage.fragShader)]) == [stage.fragShader]
  {
    CompiledShaderCalls(stage.fragShader, GL_FRAGMENT_SHADER, fragSource, fragCompiles);
    NoCompiles([CreateProgram(stage.program)]);
    NoCompiles([AttachShader(stage.program, stage.fragShader)]);
    CompiledAround([CreateProgram(stage.program)],
                   ShaderCalls(stage.fragShader, GL_FRAGMENT_SHADER, fragSource, fragCompiles),
                   [AttachShader(stage.program, stage.fragShader)]);
  }

  /** Loading a stage compiles exactly two shaders, the fragment shader
      first, whatever the compile and link status. */
  lemma StageCompilesInOrder(stage: ShaderStage, fragSource: string, vertSource: string, status: BuildStatus)
    ensures Compiled(StageCalls(stage, fragSource, vertSource, status)) == [stage.fragShader, stage.vertShader]
  {
    var front := [CreateProgram(stage.program)]
                 + ShaderCalls(stage.fragShader, GL_FRAGMENT_SHADER, fragSource, status.fragCompiles)
                 + [AttachShader(stage.program, stage.fragShader)];
    var vertCalls := ShaderCalls(stage.vertShader, GL_VERTEX_SHADER, vertSource, status.vertCompiles);
    var tail := LinkCalls(stage, status.links);
    FrontCompiles(stage, fragSource, status.fragCompiles);
    CompiledShaderCalls(stage.vertShader, GL_VERTEX_SHADER, vertSource, status.vertCompiles);
    LinkCompilesNothing(stage, status.links);
    CompiledJoin(front, vertCalls, tail);
  }

  lemma LinkCompilesNothing(stage: ShaderStage, links: bool)
    ensures Compiled(LinkCalls(stage, links)) == []
  {
    NoCompiles(LinkCalls(stage, links));
  }

  lemma CompiledJoin(a: seq<Call>, b: seq<Call>, c: seq<Call>)
    ensures Compiled(a + b + c) == Compiled(a) + Compiled(b) + Compiled(c)
  {
    CompiledAppend(a, b);
    CompiledAppend(a + b, c);
  }

  /** Loading a stage starts by creating the program and ends by making it
      the current program. */
  lemma StageMakesProgramCurrent(s: DeviceState, stage: ShaderStage, fragSource: string, vertSource: string, status: BuildStatus)
    ensures var calls := StageCalls(stage, fragSource, vertSource, status);
      && calls[0] == CreateProgram(stage.program)
      && calls[|calls| - 1] == UseProgram(stage.program)
      && Run(s, calls).currentProgram == stage.program
  {
    var calls := StageCalls(stage, fragSource, vertSource, status);
    var pre := calls[..|calls| - 1];
    assert calls == pre + [UseProgram(stage.program)];
    RunSnoc(s, pre, UseProgram(stage.program));
  }

  /** `LoadShaderInternal`: reads the source, creates and compiles a shader;
      a failed compile only queries the log. */
  method LoadShaderInternal(dev: Device, files: map<string, string>, path: string, shaderType: u32, compiles: bool)
    returns (r: Result<nat, Panic>)
    modifies dev
    ensures r.Success? <==> path in files
    ensures r.Failure? ==> r.error == ResourceNotFound && unchanged(dev)
    ensures r.Success? ==>
      && r.value == old(dev.nextName)
      && dev.nextName == old(dev.nextName) + 1
      && dev.trace == old(dev.trace) + ShaderCalls(r.value, shaderType, files[path], compiles)
      && dev.state == old(dev.state)
  {
    if path !in files {
      return Failure(ResourceNotFound);
    }
    var shaderCode := files[path];
    var shader := dev.nextName;
    dev.IssueInert(CreateShader(shaderType, shader));
    dev.IssueInert(ShaderSource(shader, shaderCode));
    dev.IssueInert(CompileShader(shader));
    dev.IssueInert(GetShaderiv(shader, GL_COMPILE_STATUS));
    ghost var queried := dev.trace;
    if !compiles {
      dev.IssueInert(GetShaderInfoLog(shader));
    }
    assert dev.trace == queried + (if compiles then [] else [GetShaderInfoLog(shader)]);
    r := Success(shader);
  }

  /** The fragment-shader step of `LoadShaderStage`: load the shader, then
      attach it to `program`. */
  method AttachFragmentShader(dev: Device, files: map<string, string>, fragPath: string, program: nat, compiles: bool)
    returns (r: Result<nat, Panic>)
    modifies dev
    ensures r.Success? <==> fragPath in files
    ensures r.Failure? ==> r.error == ResourceNotFound && unchanged(dev)
    ensures r.Success? ==>
      && r.value == old(dev.nextName)
      && dev.nextName == old(dev.nextName) + 1
      && dev.trace == old(dev.trace) + (ShaderCalls(r.value, GL_FRAGMENT_SHADER, files[fragPath], compiles)
                                        + [AttachShader(program, r.value)])
      && dev.state == old(dev.state)
  {
    r := LoadShaderInternal(dev, files, fragPath, GL_FRAGMENT_SHADER, compiles);
    if r.Success? {
      dev.IssueInert(AttachShader(program, r.value));
      AppendAssoc(old(dev.trace), ShaderCalls(r.value, GL_FRAGMENT_SHADER, files[fragPath], compiles),
                  [AttachShader(program, r.value)]);
    }
  }

  /** `LoadShaderStage`. `existing` holds the paths that exist on the file
      system and `files` the contents of those that can be read as text.
      Both `<path>.vert` and `<path>.frag` must exist before anything is
      issued. Then the program is created and the fragment and vertex shaders
      are compiled and attached in that order; a shader that cannot be read
      panics there, after the calls before it. Finally the program is linked
      and made current. Compile and link failures do not fail the load. */
  method LoadShaderStage(dev: Device, existing: set<string>, files: map<string, string>, path: string,
                         status: BuildStatus)
    returns (r: Result<ShaderStage, Panic>)
    modifies dev
    ensures r.Failure? <==>
      VertPath(path) !in existing || FragPath(path) !in existing || FragPath(path) !in files || VertPath(path) !in files
    ensures r.Failure? ==> r.error == ResourceNotFound
    ensures VertPath(path) !in existing || FragPath(path) !in existing ==> unchanged(dev)
    ensures VertPath(path) in existing && FragPath(path) in existing && FragPath(path) !in files ==>
      var n := old(dev.nextName);
      && dev.trace == old(dev.trace) + [CreateProgram(n)]
      && dev.state == old(dev.state)
      && dev.nextName == n + 1
    ensures VertPath(path) in existing && FragPath(path) in existing && FragPath(path) in files && VertPath(path) !in files ==>
      var n := old(dev.nextName);
      && dev.trace == old(dev.trace) + [CreateProgram(n)]
           + ShaderCalls(n + 1, GL_FRAGMENT_SHADER, files[FragPath(path)], status.fragCompiles)
           + [AttachShader(n, n + 1)]
      && dev.state == old(dev.state)
      && dev.nextName == n + 2
    ensures r.Success? ==>
      var n := old(dev.nextName);
      && r.value == ShaderStage(n, n + 1, n + 2)
      && dev.trace == old(dev.trace) + StageCalls(r.value, files[FragPath(path)], files[VertPath(path)], status)
      && dev.state == old(dev.state).(currentProgram := n)
      && dev.nextName == n + 3
  {
    var vertPath := path + ".vert";
    var fragPath := path + ".frag";
    if vertPath !in existing || fragPath !in existing {
      return Failure(ResourceNotFound);
    }
    var program := dev.nextName;
    dev.IssueInert(CreateProgram(program));
    var frag := AttachFragmentShader(dev, files, fragPath, program, status.fragCompiles);
    if frag.Failure? {
      return Failure(frag.error);
    }
    var fragShader := frag.value;
    ghost var fragCalls := ShaderCalls(fragShader, GL_FRAGMENT_SHADER, files[fragPath], status.fragCompiles);
    ghost var prefix := [CreateProgram(program)] + fragCalls + [AttachShader(program, fragShader)];
    AppendAssoc(old(dev.trace) + [CreateProgram(program)], fragCalls, [AttachShader(program, fragShader)]);
    AppendAssoc(old(dev.trace), [CreateProgram(program)] + fragCalls, [AttachShader(program, fragShader)]);
    AppendAssoc(old(dev.trace), [CreateProgram(program)], fragCalls);
    var vert := LoadShaderInternal(dev, files, vertPath, GL_VERTEX_SHADER, status.vertCompiles);
    if vert.Failure? {
      return Failure(vert.error);
    }
    var vertShader := vert.value;
    ghost var vertCalls := ShaderCalls(vertShader, GL_VERTEX_SHADER, files[vertPath], status.vertCompiles);
    AppendAssoc(old(dev.trace), prefix, vertCalls);
    prefix := prefix + vertCalls;
    r := Success(ShaderStage(program, fragShader, vertShader));
    LinkStage(dev, r.value, status.links);
    AppendAssoc(old(dev.trace), prefix, LinkCalls(r.value, status.links));
    ghost var calls := StageCalls(r.value, files[fragPath], files[vertPath], status);
    assert calls == prefix + LinkCalls(r.value, status.links);
  }

  // ---------------------------------------------------------------------
  // The dispatcher

  /** Executing a list of commands front to back, stopping at a panic. */
  function ListEffect(cmds: seq<RenderCommand>): Effect
    decreases |cmds|
  {
    if cmds == [] then Effect([], None) else Then(ListEffect(cmds[..|cmds| - 1]), ExecuteEffect(cmds[|cmds| - 1]))
  }

  /** Stage i of `Render`: look up `commands[i]`, which panics when there
      is no such list, then execute that list. */
  function StageEffect(i: nat, commands: seq<seq<RenderCommand>>): Effect {
    if i < |commands| then ListEffect(commands[i]) else Effect([], Some(IndexOutOfBounds))
  }

  /** `Render` over the first `stageCount` stages, in order, stopping at a panic. */
  function RenderEffect(stageCount: nat, commands: seq<seq<RenderCommand>>): Effect
    decreases stageCount
  {
    if stageCount == 0 then Effect([], None)
    else Then(RenderEffect(stageCount - 1, commands), StageEffect(stageCount - 1, commands))
  }

  /** `Render`: for each stage i in order, executes `commands[i]` front to
      back. The stage's program is not re-activated. */
  method Render(dev: Device, shaderStages: seq<ShaderStage>, commands: seq<seq<RenderCommand>>)
    returns (failure: Option<Panic>)
    modifies dev
    ensures dev.trace == old(dev.trace) + RenderEffect(|shaderStages|, commands).calls
    ensures dev.state == Run(old(dev.state), RenderEffect(|shaderStages|, commands).calls)
    ensures failure == RenderEffect(|shaderStages|, commands).failure
    ensures dev.nextName == old(dev.nextName)
  {
    failure := None;
    var i := 0;
    while i < |shaderStages|
      invariant 0 <= i <= |shaderStages|
      invariant failure.None? && RenderEffect(i, commands).failure.None?
      invariant dev.trace == old(dev.trace) + RenderEffect(i, commands).calls
      invariant dev.nextName == old(dev.nextName)
      invariant dev.state == Run(old(dev.state), RenderEffect(i, commands).calls)
    {
      ghost var before := dev.trace;
      ghost var s := dev.state;
      failure := RenderStage(dev, i, commands);
      RenderTrace(old(dev.trace), old(dev.state), before, s, dev.trace, dev.state, i, commands);
      if failure.Some? {
        RenderPrefixFails(|shaderStages|, commands, i + 1);
        break;
      }
      i := i + 1;
    }
  }

  /** One stage of `Render`: the lookup of `commands[i]`, then its commands. */
  method RenderStage(dev: Device, i: nat, commands: seq<seq<RenderCommand>>) returns (failure: Option<Panic>)
    modifies dev
    ensures dev.trace == old(dev.trace) + StageEffect(i, commands).calls
    ensures dev.state == Run(old(dev.state), StageEffect(i, commands).calls)
    ensures failure == StageEffect(i, commands).failure
    ensures dev.nextName == old(dev.nextName)
  {
    if i < |commands| {
      failure := ExecuteList(dev, commands[i]);
    } else {
      failure := Some(IndexOutOfBounds);
      assert old(dev.trace) + [] == old(dev.trace);
    }
  }

  /** Stage i appended to the first i stages makes the first i + 1. */
  lemma RenderTrace(start: seq<Call>, s0: DeviceState, before: seq<Call>, s: DeviceState,
                    after: seq<Call>, t: DeviceState, i: nat, commands: seq<seq<RenderCommand>>)
    requires RenderEffect(i, commands).failure.None?
    requires before == start + RenderEffect(i, commands).calls
    requires s == Run(s0, RenderEffect(i, commands).calls)
    requires after == before + StageEffect(i, commands).calls
    requires t == Run(s, StageEffect(i, commands).calls)
    ensures after == start + RenderEffect(i + 1, commands).calls
    ensures t == Run(s0, RenderEffect(i + 1, commands).calls)
  {
    var prev := RenderEffect(i, commands).calls;
    assert RenderEffect(i + 1, commands).calls == prev + StageEffect(i, commands).calls;
    AppendAssoc(start, prev, StageEffect(i, commands).calls);
    RunAppend(s0, prev, StageEffect(i, commands).calls);
  }

  /** The inner loop of `Render`: one stage's commands, front to back. */
  method ExecuteList(dev: Device, cmds: seq<RenderCommand>) returns (failure: Option<Panic>)
    modifies dev
    ensures dev.trace == old(dev.trace) + ListEffect(cmds).calls
    ensures dev.state == Run(old(dev.state), ListEffect(cmds).calls)
    ensures failure == ListEffect(cmds).failure
    ensures dev.nextName == old(dev.nextName)
  {
    failure := None;
    for j := 0 to |cmds|
      invariant failure.None? && ListEffect(cmds[..j]).failure.None?
      invariant dev.trace == old(dev.trace) + ListEffect(cmds[..j]).calls
      invariant dev.nextName == old(dev.nextName)
      invariant dev.state == Run(old(dev.state), ListEffect(cmds[..j]).calls)
    {
      ghost var prev := ListEffect(cmds[..j]);
      ListStep(cmds, j);
      failure := Execute(dev, cmds[j]);
      AppendAssoc(old(dev.trace), prev.calls, ExecuteEffect(cmds[j]).calls);
      RunAppend(old(dev.state), prev.calls, ExecuteEffect(cmds[j]).calls);
      if failure.Some? {
        ListPrefixFails(cmds, j + 1);
        return;
      }
    }
    assert cmds[..|cmds|] == cmds;
  }

  lemma ListStep(cmds: seq<RenderCommand>, j: nat)
    requires j < |cmds|
    ensures ListEffect(cmds[..j + 1]) == Then(ListEffect(cmds[..j]), ExecuteEffect(cmds[j]))
  {
    assert cmds[..j + 1][..j] == cmds[..j];
  }

  lemma {:induction false} ListPrefixFails(cmds: seq<RenderCommand>, k: nat)
    requires k <= |cmds|
    requires ListEffect(cmds[..k]).failure.Some?
    ensures ListEffect(cmds) == ListEffect(cmds[..k])
    decreases |cmds| - k
  {
    if k < |cmds| {
      assert cmds[..k + 1][..k] == cmds[..k];
      ListPrefixFails(cmds, k + 1);
    } else {
      assert cmds[..k] == cmds;
    }
  }

  lemma {:induction false} RenderPrefixFails(n: nat, commands: seq<seq<RenderCommand>>, k: nat)
    requires k <= n
    requires RenderEffect(k, commands).failure.Some?
    ensures RenderEffect(n, commands) == RenderEffect(k, commands)
    decreases n - k
  {
    if k < n {
      RenderPrefixFails(n, commands, k + 1);
    }
  }

  // ---------------------------------------------------------------------
  // What a render pass does

  /** A command whose every uniform payload has an arity glUniform accepts. */
  predicate CommandAccepted(cmd: RenderCommand) {
    forall u | u in cmd.uniformBindings :: 1 <= Arity(u.data) <= 4
  }

  /** The draw calls a list of commands makes, one per command, in order. */
  function DrawsOf(cmds: seq<RenderCommand>): seq<Call>
    decreases |cmds|
  {
    if cmds == [] then [] else DrawsOf(cmds[..|cmds| - 1]) + [DrawCall(cmds[|cmds| - 1])]
  }

  /** The command lists of the stages, one after the other. */
  function Flatten(lists: seq<seq<RenderCommand>>): seq<RenderCommand>
    decreases |lists|
  {
    if lists == [] then [] else Flatten(lists[..|lists| - 1]) + lists[|lists| - 1]
  }

  lemma {:induction false} DrawsOfAppend(a: seq<RenderCommand>, b: seq<RenderCommand>)
    ensures DrawsOf(a + b) == DrawsOf(a) + DrawsOf(b)
    decreases |b|
  {
    if b == [] {
      assert a + b == a;
    } else {
      assert (a + b)[..|a + b| - 1] == a + b[..|b| - 1];
      DrawsOfAppend(a, b[..|b| - 1]);
    }
  }

  /** A list of commands fails iff one of its commands has an unacceptable
      uniform arity, and then with InvalidArity. */
  lemma {:induction false} ListOutcome(cmds: seq<RenderCommand>)
    ensures var e := ListEffect(cmds);
      && (e.failure.None? <==> forall j | 0 <= j < |cmds| :: CommandAccepted(cmds[j]))
      && (e.failure.Some? ==> e.failure == Some(InvalidArity))
    decreases |cmds|
  {
    if cmds != [] {
      var init := cmds[..|cmds| - 1];
      var last := cmds[|cmds| - 1];
      ListOutcome(init);
      ExecuteDrawsOnce(Initial, last);
      assert forall j | 0 <= j < |init| :: init[j] == cmds[j];
    }
  }

  /** A completed list draws once per command, in order, and nothing else. */
  lemma {:induction false} ListDraws(cmds: seq<RenderCommand>)
    requires ListEffect(cmds).failure.None?
    ensures Draws(ListEffect(cmds).calls) == DrawsOf(cmds)
    decreases |cmds|
  {
    if cmds == [] {
      NoDraws([]);
    } else {
      var init := cmds[..|cmds| - 1];
      var last := cmds[|cmds| - 1];
      ListDraws(init);
      ExecuteDrawsOnce(Initial, last);
      DrawsAppend(ListEffect(init).calls, ExecuteEffect(last).calls);
    }
  }

  /** A render pass over n stages completes iff there is a command list for
      each stage and every command in those lists is accepted. It fails with
      IndexOutOfBounds only when the lists run out, and otherwise with
      InvalidArity. */
  lemma {:induction false} RenderOutcome(n: nat, commands: seq<seq<RenderCommand>>)
    ensures var e := RenderEffect(n, commands);
      && (e.failure.None? <==>
            n <= |commands| &&
            forall i, j | 0 <= i < n && 0 <= j < |commands[i]| :: CommandAccepted(commands[i][j]))
      && (e.failure.Some? ==> e.failure == Some(InvalidArity) || e.failure == Some(IndexOutOfBounds))
      && (e.failure == Some(IndexOutOfBounds) ==> |commands| < n)
    decreases n
  {
    if n > 0 {
      RenderOutcome(n - 1, commands);
      if n - 1 < |commands| {
        ListOutcome(commands[n - 1]);
      }
    }
  }

  /** With fewer command lists than stages, and every listed command
      accepted, the pass executes all the lists it has and then panics. */
  lemma RenderShortList(n: nat, commands: seq<seq<RenderCommand>>)
    requires |commands| < n
    requires RenderEffect(|commands|, commands).failure.None?
    ensures RenderEffect(n, commands)
         == Effect(RenderEffect(|commands|, commands).calls, Some(IndexOutOfBounds))
  {
    var k := |commands|;
    assert RenderEffect(k + 1, commands) == Effect(RenderEffect(k, commands).calls + [], Some(IndexOutOfBounds));
    assert RenderEffect(k, commands).calls + [] == RenderEffect(k, commands).calls;
    RenderPrefixFails(n, commands, k + 1);
  }

  /** Command lists beyond the number of stages are never looked at. */
  lemma {:induction false} RenderIgnoresExtra(k: nat, commands: seq<seq<RenderCommand>>, m: nat)
    requires k <= m <= |commands|
    ensures RenderEffect(k, commands) == RenderEffect(k, commands[..m])
    decreases k
  {
    if k > 0 {
      RenderIgnoresExtra(k - 1, commands, m);
      assert commands[..m][k - 1] == commands[k - 1];
    }
  }

  /** A completed pass draws once per command, stage by stage, each stage's
      commands front to back. */
  lemma {:induction false} RenderDraws(n: nat, commands: seq<seq<RenderCommand>>)
    requires RenderEffect(n, commands).failure.None?
    ensures n <= |commands|
    ensures Draws(RenderEffect(n, commands).calls) == DrawsOf(Flatten(commands[..n]))
    decreases n
  {
    if n == 0 {
      NoDraws([]);
      assert commands[..0] == [];
    } else {
      var prev := RenderEffect(n - 1, commands);
      RenderDraws(n - 1, commands);
      assert n - 1 < |commands|;
      ListDraws(commands[n - 1]);
      assert RenderEffect(n, commands).calls == prev.calls + ListEffect(commands[n - 1]).calls;
      DrawsAppend(prev.calls, ListEffect(commands[n - 1]).calls);
      FlattenSnoc(commands, n);
      DrawsOfAppend(Flatten(commands[..n - 1]), commands[n - 1]);
    }
  }

  lemma FlattenSnoc(commands: seq<seq<RenderCommand>>, n: nat)
    requires 0 < n <= |commands|
    ensures Flatten(commands[..n]) == Flatten(commands[..n - 1]) + commands[n - 1]
  {
    assert commands[..n][..n - 1] == commands[..n - 1];
  }

  /** A command never changes the current program; when it completes, the
      set of enabled attribute arrays has not grown. */
  lemma ExecuteKeepsProgram(s: DeviceState, cmd: RenderCommand)
    ensures Run(s, ExecuteEffect(cmd).calls).currentProgram == s.currentProgram
    ensures ExecuteEffect(cmd).failure.None? ==> Run(s, ExecuteEffect(cmd).calls).enabledAttribs <= s.enabledAttribs
  {
    if ExecuteEffect(cmd).failure.Some? {
      assert ExecuteEffect(cmd) == BindEffect(cmd);
      BindState(s, cmd);
    } else {
      ExecuteLeavesNothingBound(s, cmd);
    }
  }

  lemma {:induction false} ListKeepsProgram(s: DeviceState, cmds: seq<RenderCommand>)
    ensures Run(s, ListEffect(cmds).calls).currentProgram == s.currentProgram
    ensures ListEffect(cmds).failure.None? ==> Run(s, ListEffect(cmds).calls).enabledAttribs <= s.enabledAttribs
    decreases |cmds|
  {
    if cmds != [] {
      var init := ListEffect(cmds[..|cmds| - 1]);
      var last := cmds[|cmds| - 1];
      ListKeepsProgram(s, cmds[..|cmds| - 1]);
      if init.failure.None? {
        RunAppend(s, init.calls, ExecuteEffect(last).calls);
        ExecuteKeepsProgram(Run(s, init.calls), last);
      }
    }
  }

  /** A render pass never makes another program current: every uniform it
      sets belongs to the program that was current before it, whatever
      stage the command list belongs to. When the pass completes, no
      attribute array it enabled is left enabled. */
  lemma {:induction false} RenderKeepsProgram(s: DeviceState, n: nat, commands: seq<seq<RenderCommand>>)
    ensures Run(s, RenderEffect(n, commands).calls).currentProgram == s.currentProgram
    ensures RenderEffect(n, commands).failure.None? ==>
      Run(s, RenderEffect(n, commands).calls).enabledAttribs <= s.enabledAttribs
    decreases n
  {
    if n > 0 {
      var prev := RenderEffect(n - 1, commands);
      RenderKeepsProgram(s, n - 1, commands);
      if prev.failure.None? {
        var stage := StageEffect(n - 1, commands);
        RunAppend(s, prev.calls, stage.calls);
        if n - 1 < |commands| {
          ListKeepsProgram(Run(s, prev.calls), commands[n - 1]);
        } else {
          assert stage.calls == [];
        }
      }
    }
  }
}
