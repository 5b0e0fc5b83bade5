/** The user-interface pass the firmware sets up at start-up
    (`PrepareUIStage` in firmware/src/main.rs): two textured quads, a green
    and a blue one, each drawn as a four-vertex triangle fan through the
    default shader stage. The attribute and uniform locations the driver
    reports, the quads' buffers and the texture unit are parameters. */
module Scenario {
  import opened Wrappers
  import opened Panics
  import opened GLES
  import opened Renderer

  /** The three vertex buffers of a quad. */
  datatype Geometry = Geometry(vertices: GPUBuffer, colors: GPUBuffer, texcoords: GPUBuffer)

  /** The locations of `a_vertex`, `a_color`, `a_texCoord` and `u_tex0`. */
  datatype UILocations = UILocations(vertex: i32, color: i32, texCoord: i32, tex0: i32)

  /** Every location passes the check of its binding factory. */
  predicate Found(l: UILocations) {
    l.vertex != GL_INVALID_OPERATION && l.color != GL_INVALID_OPERATION &&
    l.texCoord != GL_INVALID_OPERATION && l.tex0 >= 0
  }

  /** The command of one quad: positions with 2 components, colours with 3,
      texture coordinates with 2, the texture unit as the one integer
      uniform, and a fan of 4 vertices. A binding that fails panics. */
  function QuadCommand(l: UILocations, quad: Geometry, texUnit: i32): (r: Result<RenderCommand, Panic>)
    ensures r.Success? <==> Found(l)
    ensures r.Failure? ==> r.error == BindingNotFound
    ensures r.Success? ==>
      && |r.value.attributeBindings| == 3
      && [r.value.attributeBindings[0].attributeHndl, r.value.attributeBindings[1].attributeHndl,
          r.value.attributeBindings[2].attributeHndl] == [AsGLuint(l.vertex), AsGLuint(l.color), AsGLuint(l.texCoord)]
      && [r.value.attributeBindings[0].numComponents, r.value.attributeBindings[1].numComponents,
          r.value.attributeBindings[2].numComponents] == [2, 3, 2]
      && [r.value.attributeBindings[0].dataBufferHndl, r.value.attributeBindings[1].dataBufferHndl,
          r.value.attributeBindings[2].dataBufferHndl] == [quad.vertices.handle, quad.colors.handle, quad.texcoords.handle]
      && r.value.uniformBindings == [UniformBinding(l.tex0, Integer([texUnit]))]
      && r.value.primitiveType == TriangleFan && r.value.numVertices == 4
  {
    var vertex := BindAttribute(l.vertex, quad.vertices, 2);
    var color := BindAttribute(l.color, quad.colors, 3);
    var texCoord := BindAttribute(l.texCoord, quad.texcoords, 2);
    var tex0 := BindUniform(l.tex0, [texUnit]);
    if vertex.Failure? || color.Failure? || texCoord.Failure? || tex0.Failure? then Failure(BindingNotFound)
    else Success(RenderCommand([vertex.value, color.value, texCoord.value], [tex0.value], TriangleFan, 4))
  }

  /** The draw of a quad: a fan of 4 vertices from the first one. */
  const FanOfFour: Call := DrawArrays(GL_TRIANGLE_FAN, 0, 4)

  lemma QuadAccepted(l: UILocations, quad: Geometry, texUnit: i32)
    requires Found(l)
    ensures CommandAccepted(QuadCommand(l, quad, texUnit).value)
    ensures DrawCall(QuadCommand(l, quad, texUnit).value) == FanOfFour
  {
    var cmd := QuadCommand(l, quad, texUnit).value;
    forall u | u in cmd.uniformBindings
      ensures 1 <= Arity(u.data) <= 4
    {
      assert u == UniformBinding(l.tex0, Integer([texUnit]));
    }
  }

  /** Binding three attributes enables their locations and leaves the last
      buffer bound; each location holds the layout of the last binding
      naming it. */
  lemma BindThreeAttributes(s: DeviceState, x: AttributeBinding, y: AttributeBinding, z: AttributeBinding)
    ensures var t := Run(s, BindAttributesCalls([x, y, z]));
      && t.enabledAttribs == s.enabledAttribs + {x.attributeHndl, y.attributeHndl, z.attributeHndl}
      && t.arrayBuffer == z.dataBufferHndl
      && t.currentProgram == s.currentProgram && t.uniforms == s.uniforms
      && z.attributeHndl in t.attribPointers && t.attribPointers[z.attributeHndl] == PointerOf(z)
      && (y.attributeHndl != z.attributeHndl ==>
            y.attributeHndl in t.attribPointers && t.attribPointers[y.attributeHndl] == PointerOf(y))
      && (x.attributeHndl != y.attributeHndl && x.attributeHndl != z.attributeHndl ==>
            x.attributeHndl in t.attribPointers && t.attribPointers[x.attributeHndl] == PointerOf(x))
  {
    var bs := [x, y, z];
    assert Locations(bs) == {x.attributeHndl, y.attributeHndl, z.attributeHndl} by {
      assert forall v :: v in bs <==> v == x || v == y || v == z;
    }
    BindAttributesState(s, bs);
    BindAttributesLayouts(s, bs);
    assert LastNaming(bs, 2);
    assert y.attributeHndl != z.attributeHndl ==> LastNaming(bs, 1);
    assert x.attributeHndl != y.attributeHndl && x.attributeHndl != z.attributeHndl ==> LastNaming(bs, 0);
  }

  /** A single uniform binding of arity 1..4 sets its value and nothing else. */
  lemma BindOneUniform(a: DeviceState, u: UniformBinding)
    requires 1 <= Arity(u.data) <= 4
    ensures BindUniformsEffect([u]).failure.None?
    ensures Run(a, BindUniformsEffect([u]).calls) == SetUniform(a, u.handle, ValueOf(u.data))
  {
    assert [u][..0] == [];
    assert BindUniformsEffect([u]) == Then(Effect([], None), UniformEffect(u));
    assert [] + UniformEffect(u).calls == UniformEffect(u).calls;
    RunUniformEffect(a, u);
  }

  /** Binding a quad's command enables its three locations, leaves its
      texture-coordinate buffer bound, records for each location the buffer
      of the last binding naming it, and sets the texture unit as the value
      of `u_tex0` in the current program. */
  lemma QuadBindsItsBuffers(l: UILocations, quad: Geometry, texUnit: i32, s: DeviceState)
    requires Found(l)
    ensures var b := Run(s, BindEffect(QuadCommand(l, quad, texUnit).value).calls);
      && b.enabledAttribs == s.enabledAttribs + {AsGLuint(l.vertex), AsGLuint(l.color), AsGLuint(l.texCoord)}
      && b.arrayBuffer == quad.texcoords.handle
      && AsGLuint(l.texCoord) in b.attribPointers
      && b.attribPointers[AsGLuint(l.texCoord)].buffer == quad.texcoords.handle
      && (AsGLuint(l.color) != AsGLuint(l.texCoord) ==>
            AsGLuint(l.color) in b.attribPointers &&
            b.attribPointers[AsGLuint(l.color)].buffer == quad.colors.handle)
      && (AsGLuint(l.vertex) != AsGLuint(l.color) && AsGLuint(l.vertex) != AsGLuint(l.texCoord) ==>
            AsGLuint(l.vertex) in b.attribPointers &&
            b.attribPointers[AsGLuint(l.vertex)].buffer == quad.vertices.handle)
      && b.uniforms == s.uniforms[(s.currentProgram, l.tex0) := Ints([texUnit])]
  {
    var cmd := QuadCommand(l, quad, texUnit).value;
    var attrs := cmd.attributeBindings;
    var u := UniformBinding(l.tex0, Integer([texUnit]));
    assert attrs == [attrs[0], attrs[1], attrs[2]];
    assert cmd.uniformBindings == [u];
    var attrCalls := BindAttributesCalls(attrs);
    BindThreeAttributes(s, attrs[0], attrs[1], attrs[2]);
    BindOneUniform(Run(s, attrCalls), u);
    assert BindEffect(cmd).calls == attrCalls + BindUniformsEffect([u]).calls;
    RunAppend(s, attrCalls, BindUniformsEffect([u]).calls);
  }

  /** An accepted command is bracketed: its bindings, its one draw, then
      its unbinding. */
  lemma Bracketed(cmd: RenderCommand)
    requires CommandAccepted(cmd)
    ensures ExecuteEffect(cmd) == Effect(BindEffect(cmd).calls + [DrawCall(cmd)] + UnbindCalls(cmd), None)
  {
    ExecuteDrawsOnce(Initial, cmd);
    ExecuteCalls(cmd);
    AppendAssoc(BindEffect(cmd).calls, [DrawCall(cmd)], UnbindCalls(cmd));
  }

  /** One stage holding `g` then `b` executes `g` in full, then `b`. */
  lemma OneStageTwoCommands(g: RenderCommand, b: RenderCommand)
    requires CommandAccepted(g) && CommandAccepted(b)
    ensures RenderEffect(1, [[g, b]]) == Effect(ExecuteEffect(g).calls + ExecuteEffect(b).calls, None)
  {
    Bracketed(g);
    Bracketed(b);
    var commands := [[g, b]];
    assert [g, b][..1] == [g];
    assert [g][..0] == [];
    assert ListEffect([g]) == Effect([] + ExecuteEffect(g).calls, None);
    assert [] + ExecuteEffect(g).calls == ExecuteEffect(g).calls;
    assert RenderEffect(1, commands) == Then(Effect([], None), ListEffect([g, b]));
  }

  /** With every location found, the user-interface stage completes. It
      binds, draws and unbinds the green quad, then binds, draws and
      unbinds the blue one; each draw is a fan of four vertices. The state
      at each draw is given by `QuadBindsItsBuffers`. */
  lemma UIPassDrawsTwoFans(l: UILocations, green: Geometry, blue: Geometry, texUnit: i32)
    requires Found(l)
    ensures QuadCommand(l, green, texUnit).Success? && QuadCommand(l, blue, texUnit).Success?
    ensures var g := QuadCommand(l, green, texUnit).value;
      var b := QuadCommand(l, blue, texUnit).value;
      && DrawCall(g) == FanOfFour && DrawCall(b) == FanOfFour
      && RenderEffect(1, [[g, b]]).failure.None?
      && RenderEffect(1, [[g, b]]).calls
         == BindEffect(g).calls + [FanOfFour] + UnbindCalls(g) + (BindEffect(b).calls + [FanOfFour] + UnbindCalls(b))
  {
    var g := QuadCommand(l, green, texUnit).value;
    var b := QuadCommand(l, blue, texUnit).value;
    QuadAccepted(l, green, texUnit);
    QuadAccepted(l, blue, texUnit);
    OneStageTwoCommands(g, b);
    Bracketed(g);
    Bracketed(b);
  }

  /** An attribute location equal to GL_INVALID_OPERATION makes the set-up
      panic before any command exists. */
  lemma MissingAttributePanics(l: UILocations, quad: Geometry, texUnit: i32)
    requires l.color == GL_INVALID_OPERATION
    ensures QuadCommand(l, quad, texUnit) == Failure(BindingNotFound)
  {
  }
}
