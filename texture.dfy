/** Texture loading (firmware/src/ebola/texture.rs): one decoded image
    becomes one 2D texture on one of the eight texture units. Opening and
    decoding the file is outside the model: the caller passes the decoded
    image, or None when the image library failed. */
module Texture {
  import opened Wrappers
  import opened Panics
  import opened GLES

  /** A decoded image: its dimensions and its raw pixel bytes. */
  datatype Image = Image(width: u32, height: u32, pixels: seq<bv8>)

  /** A loaded texture: its name, the unit index it was loaded into and the
      matching GL_TEXTUREi enum. */
  datatype Texture = Texture(identifier: nat, unit: i32, sampler: u32)

  /** The texture-unit enum for a sampler index; only units 0 to 7 are
      supported. */
  function SamplerEnum(samplerIdx: i32): (r: Option<u32>)
    ensures r.Some? <==> 0 <= samplerIdx <= 7
    ensures r.Some? ==> r.value == GL_TEXTURE0 + samplerIdx
  {
    match samplerIdx
    case 0 => Some(GL_TEXTURE0)
    case 1 => Some(GL_TEXTURE1)
    case 2 => Some(GL_TEXTURE2)
    case 3 => Some(GL_TEXTURE3)
    case 4 => Some(GL_TEXTURE4)
    case 5 => Some(GL_TEXTURE5)
    case 6 => Some(GL_TEXTURE6)
    case 7 => Some(GL_TEXTURE7)
    case _ => None
  }

  /** Distinct sampler indices select distinct units. */
  lemma SamplerEnumInjective(i: i32, j: i32)
    requires SamplerEnum(i).Some? && SamplerEnum(j).Some?
    ensures SamplerEnum(i) == SamplerEnum(j) <==> i == j
  {
  }

  function ParameterCalls(): seq<Call> {
    [TexParameteri(GL_TEXTURE_2D, GL_TEXTURE_MIN_FILTER, GL_LINEAR),
     TexParameteri(GL_TEXTURE_2D, GL_TEXTURE_MAG_FILTER, GL_LINEAR),
     TexParameteri(GL_TEXTURE_2D, GL_TEXTURE_WRAP_S, GL_CLAMP_TO_EDGE),
     TexParameteri(GL_TEXTURE_2D, GL_TEXTURE_WRAP_T, GL_CLAMP_TO_EDGE)]
  }

  /** The image upload: level 0, RGB, unsigned bytes, the dimensions cast
      to GLint. */
  function ImageCall(img: Image): Call {
    TexImage2D(GL_TEXTURE_2D, 0, GL_RGB, AsGLint(img.width), AsGLint(img.height), 0,
               GL_RGB, GL_UNSIGNED_BYTE, img.pixels)
  }

  /** The calls of a successful load: name the texture, select the unit,
      bind, set the filters and the wrap modes, upload the image. */
  function TextureCalls(id: nat, sampler: u32, img: Image): seq<Call> {
    [GenTexture(id), ActiveTexture(sampler), BindTexture(GL_TEXTURE_2D, id)]
    + ParameterCalls()
    + [ImageCall(img)]
  }

  /** The filter and wrap parameters of texture `id` after the load. */
  function Parameters(params: map<(nat, u32), i32>, id: nat): map<(nat, u32), i32> {
    params[(id, GL_TEXTURE_MIN_FILTER) := GL_LINEAR][(id, GL_TEXTURE_MAG_FILTER) := GL_LINEAR]
          [(id, GL_TEXTURE_WRAP_S) := GL_CLAMP_TO_EDGE][(id, GL_TEXTURE_WRAP_T) := GL_CLAMP_TO_EDGE]
  }

  /** One parameter call sets that parameter of the texture bound to the
      active unit. */
  lemma ParameterStep(s: DeviceState, pname: u32, param: i32)
    ensures Step(s, TexParameteri(GL_TEXTURE_2D, pname, param))
         == s.(textureParams := s.textureParams[(BoundTexture(s), pname) := param])
  {
  }

  /** The four parameter calls set exactly the four parameters of the
      texture bound to the active unit. */
  lemma RunParameters(s: DeviceState)
    ensures Run(s, ParameterCalls()) == s.(textureParams := Parameters(s.textureParams, BoundTexture(s)))
  {
    var p := ParameterCalls();
    var id := BoundTexture(s);
    RunThree(s, p[0], p[1], p[2]);
    ParameterStep(s, GL_TEXTURE_MIN_FILTER, GL_LINEAR);
    var s1 := s.(textureParams := s.textureParams[(id, GL_TEXTURE_MIN_FILTER) := GL_LINEAR]);
    ParameterStep(s1, GL_TEXTURE_MAG_FILTER, GL_LINEAR);
    var s2 := s1.(textureParams := s1.textureParams[(id, GL_TEXTURE_MAG_FILTER) := GL_LINEAR]);
    ParameterStep(s2, GL_TEXTURE_WRAP_S, GL_CLAMP_TO_EDGE);
    var s3 := s2.(textureParams := s2.textureParams[(id, GL_TEXTURE_WRAP_S) := GL_CLAMP_TO_EDGE]);
    ParameterStep(s3, GL_TEXTURE_WRAP_T, GL_CLAMP_TO_EDGE);
    assert p == [p[0], p[1], p[2]] + [p[3]];
    RunSnoc(s, [p[0], p[1], p[2]], p[3]);
  }

  /** Selecting a unit changes only the active unit. */
  lemma ActiveStep(s: DeviceState, sampler: u32)
    ensures Step(s, ActiveTexture(sampler)) == s.(activeTexture := sampler)
  {
  }

  /** Binding a 2D texture binds it on the active unit. */
  lemma BindStep(s: DeviceState, id: nat)
    ensures Step(s, BindTexture(GL_TEXTURE_2D, id)) == s.(boundTextures := s.boundTextures[s.activeTexture := id])
  {
  }

  /** Naming, unit selection and binding leave texture `id` bound on the
      selected unit. */
  lemma RunSetup(s: DeviceState, id: nat, sampler: u32)
    ensures Run(s, [GenTexture(id), ActiveTexture(sampler), BindTexture(GL_TEXTURE_2D, id)])
         == s.(activeTexture := sampler, boundTextures := s.boundTextures[sampler := id])
  {
    RunThree(s, GenTexture(id), ActiveTexture(sampler), BindTexture(GL_TEXTURE_2D, id));
    StepInert(s, GenTexture(id));
    ActiveStep(s, sampler);
    BindStep(s.(activeTexture := sampler), id);
  }

  /** The upload stores the image as level 0 of the bound texture. */
  lemma ImageStep(s: DeviceState, img: Image)
    ensures Step(s, ImageCall(img)) == s.(textureImages := s.textureImages[BoundTexture(s) :=
      TextureImage(0, GL_RGB, AsGLint(img.width), AsGLint(img.height), GL_RGB, GL_UNSIGNED_BYTE, img.pixels)])
  {
  }

  /** After a load, the unit is active with the texture bound to it, the
      texture filters linearly and clamps to the edge in both directions,
      and it holds the image's pixels at level 0. Besides the unit, the
      binding, the parameters and the image, nothing changes. */
  lemma {:induction false} TextureState(s: DeviceState, id: nat, sampler: u32, img: Image)
    ensures var t := Run(s, TextureCalls(id, sampler, img));
      && t.activeTexture == sampler
      && BoundTexture(t) == id
      && t.boundTextures == s.boundTextures[sampler := id]
      && t.textureParams == Parameters(s.textureParams, id)
      && t.textureImages == s.textureImages[id := TextureImage(0, GL_RGB, AsGLint(img.width), AsGLint(img.height),
                                                               GL_RGB, GL_UNSIGNED_BYTE, img.pixels)]
      && t == s.(activeTexture := sampler, boundTextures := t.boundTextures,
                 textureParams := t.textureParams, textureImages := t.textureImages)
  {
    var setup := [GenTexture(id), ActiveTexture(sampler), BindTexture(GL_TEXTURE_2D, id)];
    RunSetup(s, id, sampler);
    var bound := s.(activeTexture := sampler, boundTextures := s.boundTextures[sampler := id]);
    assert BoundTexture(bound) == id;
    RunAppend(s, setup, ParameterCalls());
    RunParameters(bound);
    var params := bound.(textureParams := Parameters(s.textureParams, id));
    RunSnoc(s, setup + ParameterCalls(), ImageCall(img));
    ImageStep(params, img);
  }

  /** The calls after the naming make up the rest of the load. */
  lemma TextureTrace(s: DeviceState, id: nat, sampler: u32, img: Image, setup: seq<Call>)
    requires setup == [ActiveTexture(sampler), BindTexture(GL_TEXTURE_2D, id)] + ParameterCalls() + [ImageCall(img)]
    ensures TextureCalls(id, sampler, img) == [GenTexture(id)] + setup
    ensures Run(s, TextureCalls(id, sampler, img)) == Run(s, setup)
  {
    RunAppend(s, [GenTexture(id)], setup);
    RunOne(s, GenTexture(id));
    StepInert(s, GenTexture(id));
  }

  /** `LoadTexture`: decoding comes first, so a bad image is reported even
      for a bad sampler index; a sampler index outside 0 to 7 then panics
      before any call is made. A successful load returns the new name, the
      index and its unit enum, and leaves the texture bound on that unit. */
  method LoadTexture(dev: Device, decoded: Option<Image>, samplerIdx: i32) returns (r: Result<Texture, Panic>)
    modifies dev
    ensures decoded.None? ==> r == Failure(DecodeError)
    ensures decoded.Some? && !(0 <= samplerIdx <= 7) ==> r == Failure(InvalidSamplerIndex)
    ensures r.Failure? ==> unchanged(dev)
    ensures r.Success? <==> decoded.Some? && 0 <= samplerIdx <= 7
    ensures r.Success? ==>
      && r.value == Texture(old(dev.nextName), samplerIdx, GL_TEXTURE0 + samplerIdx)
      && dev.trace == old(dev.trace) + TextureCalls(r.value.identifier, r.value.sampler, decoded.value)
      && dev.state == Run(old(dev.state), TextureCalls(r.value.identifier, r.value.sampler, decoded.value))
      && dev.nextName == old(dev.nextName) + 1
  {
    if decoded.None? {
      return Failure(DecodeError);
    }
    var img := decoded.value;
    var samplerEnum := SamplerEnum(samplerIdx);
    if samplerEnum.None? {
      return Failure(InvalidSamplerIndex);
    }
    var sampler := samplerEnum.value;
    var id := dev.nextName;
    dev.IssueInert(GenTexture(id));
    var setup := [ActiveTexture(sampler), BindTexture(GL_TEXTURE_2D, id)] + ParameterCalls() + [ImageCall(img)];
    dev.IssueAll(setup);
    r := Success(Texture(id, samplerIdx, sampler));
    TextureTrace(old(dev.state), id, sampler, img, setup);
  }
}
