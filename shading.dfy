/** The fragment shader (FSHADER_SOURCE in asg4.js) as a pure function from its
    uniforms and varyings to gl_FragColor. normalize, reflect, pow and texture
    sampling are the GPU's and stay abstract (a ShaderLib value); max, dot and
    the vector arithmetic are exact. */
module Shading {
  import opened Maths

  /** The uniforms the renderer sets once per frame (renderAllShapes). */
  datatype FrameUniforms = FrameUniforms(
    showNormal: int,       // u_showNormal
    lightPos: Vec3,        // u_lightPos
    cameraPos: Vec3,       // u_cameraPos
    lightColor: Vec3,      // u_lightColor
    light: int,            // u_light
    light1: int,           // u_light1 (colour tint gate)
    spotLightOn: int,      // u_spotLightOn
    spotLightDir: Vec3,    // u_spotLightDir
    spotLightCutoff: real  // u_spotLightCutoff
  )

  /** The uniforms each drawable sets before its draw call. */
  datatype MaterialUniforms = MaterialUniforms(
    whichTexture: int,     // u_whichTexture
    fragColor: Color4      // u_FragColor
  )

  /** The interpolated per-fragment inputs. */
  datatype Varyings = Varyings(
    uv: (real, real),      // v_UV
    normal: Vec3,          // v_Normal
    vertPos: Vec3          // vec3(v_VertPos)
  )

  /** The built-in GLSL functions the shader calls, left uninterpreted.
      `sample(k, uv)` is texture2D(u_Samplerk, uv). */
  datatype ShaderLib = ShaderLib(
    normalize: Vec3 -> Vec3,
    reflect: (Vec3, Vec3) -> Vec3,
    pow: (real, real) -> real,
    sample: (int, (real, real)) -> Color4
  )

  /** The colour a selector outside {-2, -1, 1, 2} falls back to. */
  const FallbackColor: Color4 := Color4(1.0, 0.2, 0.2, 1.0)

  /** The normal-visualisation colour: (normalize(N) + 1) * 0.5 with alpha 1. */
  function NormalColor(lib: ShaderLib, normal: Vec3): Color4 {
    var n := lib.normalize(normal);
    Color4((n.x + 1.0) * 0.5, (n.y + 1.0) * 0.5, (n.z + 1.0) * 0.5, 1.0)
  }

  /** The base colour, chosen in the shader's priority order. Only u_showNormal
      among the frame uniforms takes part. */
  function BaseColor(lib: ShaderLib, showNormal: int, m: MaterialUniforms, v: Varyings): Color4 {
    if showNormal == 1 then NormalColor(lib, v.normal)
    else if m.whichTexture == -2 then m.fragColor
    else if m.whichTexture == -1 then Color4(v.uv.0, v.uv.1, 1.0, 1.0)
    else if m.whichTexture == 1 then lib.sample(1, v.uv)
    else if m.whichTexture == 2 then lib.sample(2, v.uv)
    else FallbackColor
  }

  /** `c *= u_lightColor` when the tint gate u_light1 is 1. */
  function Tinted(f: FrameUniforms, c: Vec3): Vec3 {
    if f.light1 == 1 then Mul(c, f.lightColor) else c
  }

  /** The fragment shader's main(), step by step as written. */
  function Shade(lib: ShaderLib, f: FrameUniforms, m: MaterialUniforms, v: Varyings): Color4 {
    var baseColor := BaseColor(lib, f.showNormal, m, v);
    if f.light == 0 then baseColor
    else
      var n := lib.normalize(v.normal);
      var l := lib.normalize(Sub(f.lightPos, v.vertPos));
      var nDotL := Max(Dot(n, l), 0.0);
      var ambient := Scale(baseColor.Rgb(), 0.3);
      var diffuse := Scale(baseColor.Rgb(), nDotL);
      var r := lib.reflect(Neg(l), n);
      var e := lib.normalize(Sub(f.cameraPos, v.vertPos));
      var spec := lib.pow(Max(Dot(e, r), 0.0), 100.0);
      var totalColor := Tinted(f, AddScalar(Add(ambient, diffuse), spec));
      var finalColor :=
        if f.spotLightOn == 1 then
          var l2 := lib.normalize(Sub(f.lightPos, v.vertPos));
          var spotFactor := Dot(l2, Neg(lib.normalize(f.spotLightDir)));
          if spotFactor > f.spotLightCutoff then
            var nDotL2 := Max(Dot(n, l2), 0.0);
            var amb2 := Scale(baseColor.Rgb(), 0.2);
            var diff2 := Scale(baseColor.Rgb(), nDotL2);
            var r2 := lib.reflect(Neg(l2), n);
            var spec2 := lib.pow(Max(Dot(e, r2), 0.0), 100.0);
            var spotColor := Tinted(f, AddScalar(Add(amb2, diff2), spec2));
            Add(totalColor, spotColor)
          else totalColor
        else totalColor;
      Color4(finalColor.x, finalColor.y, finalColor.z, baseColor.a)
  }

  // ---------------------------------------------------------------------
  // An independent statement of the illumination model: one Phong term per
  // light, ambient weight k, diffuse max(N.L, 0), specular max(E.R, 0)^100.
  // ---------------------------------------------------------------------

  function Phong(lib: ShaderLib, k: real, base: Vec3, n: Vec3, l: Vec3, e: Vec3): Vec3 {
    var diffuse := Max(Dot(n, l), 0.0);
    var specular := lib.pow(Max(Dot(e, lib.reflect(Neg(l), n)), 0.0), 100.0);
    Vec3(k * base.x + base.x * diffuse + specular,
         k * base.y + base.y * diffuse + specular,
         k * base.z + base.z * diffuse + specular)
  }

  /** Unit normal, light direction and eye direction of a fragment. */
  function SurfaceNormal(lib: ShaderLib, v: Varyings): Vec3 { lib.normalize(v.normal) }
  function LightDir(lib: ShaderLib, f: FrameUniforms, v: Varyings): Vec3 { lib.normalize(Sub(f.lightPos, v.vertPos)) }
  function EyeDir(lib: ShaderLib, f: FrameUniforms, v: Varyings): Vec3 { lib.normalize(Sub(f.cameraPos, v.vertPos)) }

  /** The spotlight's cosine test: dot(L, -normalize(spotDir)) against the cutoff. */
  predicate InsideSpot(lib: ShaderLib, f: FrameUniforms, v: Varyings) {
    Dot(LightDir(lib, f, v), Neg(lib.normalize(f.spotLightDir))) > f.spotLightCutoff
  }

  /** What the spotlight adds to the point-light colour: a second, 0.2-ambient
      Phong term inside the cone and nothing outside it. */
  function SpotContribution(lib: ShaderLib, f: FrameUniforms, base: Vec3, v: Varyings): Vec3 {
    if f.spotLightOn == 1 && InsideSpot(lib, f, v) then
      Tinted(f, Phong(lib, 0.2, base, SurfaceNormal(lib, v), LightDir(lib, f, v), EyeDir(lib, f, v)))
    else Vec3(0.0, 0.0, 0.0)
  }

  /** pow returns a non-negative value for a non-negative base (GLSL's pow is
      undefined for a negative base and the shader never passes one). */
  ghost predicate PowNonNegative(lib: ShaderLib) {
    forall x: real, y: real {:trigger lib.pow(x, y)} :: x >= 0.0 ==> lib.pow(x, y) >= 0.0
  }

  // ---------------------------------------------------------------------
  // Properties
  // ---------------------------------------------------------------------

  /** With u_showNormal == 1 the base colour is the normal colour, whatever the
      material selector and flat colour are. */
  lemma NormalViewIgnoresMaterial(lib: ShaderLib, m1: MaterialUniforms, m2: MaterialUniforms, v: Varyings)
    ensures BaseColor(lib, 1, m1, v) == BaseColor(lib, 1, m2, v) == NormalColor(lib, v.normal)
  {
  }

  /** u_showNormal only replaces the base colour: with u_light on, the normal
      colour is still lit by the same point-light and spotlight terms as any
      material, and only the alpha stays 1. */
  lemma NormalViewIsLit(lib: ShaderLib, f: FrameUniforms, m: MaterialUniforms, v: Varyings)
    requires f.showNormal == 1 && f.light != 0
    ensures var base := NormalColor(lib, v.normal).Rgb();
      Shade(lib, f, m, v).Rgb() ==
        Add(Tinted(f, Phong(lib, 0.3, base, SurfaceNormal(lib, v), LightDir(lib, f, v), EyeDir(lib, f, v))),
            SpotContribution(lib, f, base, v))
    ensures Shade(lib, f, m, v).a == 1.0
  {
    ShadeIsPhong(lib, f, m, v);
    AlphaIsBaseAlpha(lib, f, m, v);
  }

  /** So the debug view is not the raw normal colour: where a fragment faces
      away from the light (or the light lies in its tangent plane) and shows no
      highlight, with the spotlight off and a white tint (the page's
      defaults), it shows only the 0.3 ambient share of its normal colour,
      which differs from the normal colour whenever that is not black. */
  lemma NormalViewIsNotRawNormalColor(lib: ShaderLib, f: FrameUniforms, m: MaterialUniforms, v: Varyings)
    requires f.showNormal == 1 && f.light != 0 && f.spotLightOn != 1
    requires f.light1 == 1 && f.lightColor == Vec3(1.0, 1.0, 1.0)
    requires Dot(SurfaceNormal(lib, v), LightDir(lib, f, v)) <= 0.0
    requires lib.pow(Max(Dot(EyeDir(lib, f, v), lib.reflect(Neg(LightDir(lib, f, v)), SurfaceNormal(lib, v))), 0.0), 100.0) == 0.0
    ensures Shade(lib, f, m, v).Rgb() == Scale(NormalColor(lib, v.normal).Rgb(), 0.3)
    ensures NormalColor(lib, v.normal).Rgb() != Vec3(0.0, 0.0, 0.0) ==> Shade(lib, f, m, v) != NormalColor(lib, v.normal)
  {
    var base := NormalColor(lib, v.normal).Rgb();
    SpotOffIsPointLight(lib, f, m, v);
    var p := Phong(lib, 0.3, base, SurfaceNormal(lib, v), LightDir(lib, f, v), EyeDir(lib, f, v));
    assert p == Scale(base, 0.3);
    assert Tinted(f, p) == p;
  }

  /** The material selector table with u_showNormal != 1: -2 flat colour,
      -1 UV colour, 1 and 2 sample their texture, anything else (0 included)
      the fallback red. */
  lemma SelectorTable(lib: ShaderLib, showNormal: int, m: MaterialUniforms, v: Varyings)
    requires showNormal != 1
    ensures m.whichTexture == -2 ==> BaseColor(lib, showNormal, m, v) == m.fragColor
    ensures m.whichTexture == -1 ==> BaseColor(lib, showNormal, m, v) == Color4(v.uv.0, v.uv.1, 1.0, 1.0)
    ensures m.whichTexture == 1 || m.whichTexture == 2 ==>
              BaseColor(lib, showNormal, m, v) == lib.sample(m.whichTexture, v.uv)
    ensures m.whichTexture !in {-2, -1, 1, 2} ==> BaseColor(lib, showNormal, m, v) == FallbackColor
  {
  }

  /** A normalized normal with components in [-1, 1] maps to a colour in [0, 1]. */
  lemma NormalColorInUnitCube(lib: ShaderLib, normal: Vec3)
    requires var n := lib.normalize(normal); -1.0 <= n.x <= 1.0 && -1.0 <= n.y <= 1.0 && -1.0 <= n.z <= 1.0
    ensures var c := NormalColor(lib, normal);
      0.0 <= c.r <= 1.0 && 0.0 <= c.g <= 1.0 && 0.0 <= c.b <= 1.0 && c.a == 1.0
  {
  }

  /** With the point light off the output is the base colour exactly, so two
      frames that differ only in light, camera and spotlight values give the
      same colour. */
  lemma LightOffPassesBaseColor(lib: ShaderLib, f: FrameUniforms, g: FrameUniforms, m: MaterialUniforms, v: Varyings)
    requires f.light == 0 && g.light == 0 && f.showNormal == g.showNormal
    ensures Shade(lib, f, m, v) == BaseColor(lib, f.showNormal, m, v)
    ensures Shade(lib, f, m, v) == Shade(lib, g, m, v)
  {
  }

  /** The output alpha is always the base colour's alpha. */
  lemma AlphaIsBaseAlpha(lib: ShaderLib, f: FrameUniforms, m: MaterialUniforms, v: Varyings)
    ensures Shade(lib, f, m, v).a == BaseColor(lib, f.showNormal, m, v).a
  {
  }

  /** With the light on, the shader computes the tinted point-light Phong term
      plus the spotlight contribution: the written-out shader agrees with the
      closed-form model. */
  lemma ShadeIsPhong(lib: ShaderLib, f: FrameUniforms, m: MaterialUniforms, v: Varyings)
    requires f.light != 0
    ensures var base := BaseColor(lib, f.showNormal, m, v).Rgb();
      Shade(lib, f, m, v).Rgb() ==
        Add(Tinted(f, Phong(lib, 0.3, base, SurfaceNormal(lib, v), LightDir(lib, f, v), EyeDir(lib, f, v))),
            SpotContribution(lib, f, base, v))
  {
    var base := BaseColor(lib, f.showNormal, m, v).Rgb();
    var n, l, e := SurfaceNormal(lib, v), LightDir(lib, f, v), EyeDir(lib, f, v);
    var spec := lib.pow(Max(Dot(e, lib.reflect(Neg(l), n)), 0.0), 100.0);
    assert AddScalar(Add(Scale(base, 0.3), Scale(base, Max(Dot(n, l), 0.0))), spec) == Phong(lib, 0.3, base, n, l, e);
    if f.spotLightOn == 1 && InsideSpot(lib, f, v) {
      var spec2 := lib.pow(Max(Dot(e, lib.reflect(Neg(l), n)), 0.0), 100.0);
      assert AddScalar(Add(Scale(base, 0.2), Scale(base, Max(Dot(n, l), 0.0))), spec2) == Phong(lib, 0.2, base, n, l, e);
    }
  }

  /** With the spotlight off, the light-on output is exactly the tinted point-
      light term 0.3*base + base*max(N.L,0) + spec. */
  lemma SpotOffIsPointLight(lib: ShaderLib, f: FrameUniforms, m: MaterialUniforms, v: Varyings)
    requires f.light != 0 && f.spotLightOn != 1
    ensures var base := BaseColor(lib, f.showNormal, m, v).Rgb();
      Shade(lib, f, m, v).Rgb() ==
        Tinted(f, Phong(lib, 0.3, base, SurfaceNormal(lib, v), LightDir(lib, f, v), EyeDir(lib, f, v)))
  {
    ShadeIsPhong(lib, f, m, v);
  }

  /** Turning the spotlight on adds exactly the spotlight contribution to the
      light-on colour and keeps its alpha. */
  lemma SpotlightAdds(lib: ShaderLib, f: FrameUniforms, m: MaterialUniforms, v: Varyings)
    requires f.light != 0 && f.spotLightOn == 1
    ensures Shade(lib, f, m, v).Rgb() ==
      Add(Shade(lib, f.(spotLightOn := 0), m, v).Rgb(), SpotContribution(lib, f, BaseColor(lib, f.showNormal, m, v).Rgb(), v))
    ensures Shade(lib, f, m, v).a == Shade(lib, f.(spotLightOn := 0), m, v).a
  {
    ShadeIsPhong(lib, f, m, v);
    ShadeIsPhong(lib, f.(spotLightOn := 0), m, v);
    AlphaIsBaseAlpha(lib, f, m, v);
    AlphaIsBaseAlpha(lib, f.(spotLightOn := 0), m, v);
  }

  /** Outside the cone the spotlight changes nothing at all. */
  lemma SpotOutsideConeChangesNothing(lib: ShaderLib, f: FrameUniforms, m: MaterialUniforms, v: Varyings)
    requires f.light != 0 && f.spotLightOn == 1 && !InsideSpot(lib, f, v)
    ensures Shade(lib, f, m, v) == Shade(lib, f.(spotLightOn := 0), m, v)
  {
    SpotlightAdds(lib, f, m, v);
  }

  /** The spotlight term never subtracts when the base colour, the light colour
      (if it tints) and pow are non-negative. */
  lemma SpotContributionNonNegative(lib: ShaderLib, f: FrameUniforms, base: Vec3, v: Varyings)
    requires PowNonNegative(lib) && NonNegative(base)
    requires f.light1 == 1 ==> NonNegative(f.lightColor)
    ensures NonNegative(SpotContribution(lib, f, base, v))
  {
    if f.spotLightOn == 1 && InsideSpot(lib, f, v) {
      var n, l, e := SurfaceNormal(lib, v), LightDir(lib, f, v), EyeDir(lib, f, v);
      var d := Max(Dot(n, l), 0.0);
      var s := lib.pow(Max(Dot(e, lib.reflect(Neg(l), n)), 0.0), 100.0);
      assert s >= 0.0;
      assert base.x * d >= 0.0 && base.y * d >= 0.0 && base.z * d >= 0.0;
      var p := Phong(lib, 0.2, base, n, l, e);
      assert NonNegative(p);
      if f.light1 == 1 {
        assert NonNegative(Mul(p, f.lightColor));
      }
    }
  }

  /** Hence, under those conditions, the spotlight can only brighten each channel. */
  lemma SpotlightNeverDarkens(lib: ShaderLib, f: FrameUniforms, m: MaterialUniforms, v: Varyings)
    requires f.light != 0 && f.spotLightOn == 1
    requires PowNonNegative(lib) && NonNegative(BaseColor(lib, f.showNormal, m, v).Rgb())
    requires f.light1 == 1 ==> NonNegative(f.lightColor)
    ensures var on, off := Shade(lib, f, m, v), Shade(lib, f.(spotLightOn := 0), m, v);
      on.r >= off.r && on.g >= off.g && on.b >= off.b
  {
    SpotlightAdds(lib, f, m, v);
    SpotContributionNonNegative(lib, f, BaseColor(lib, f.showNormal, m, v).Rgb(), v);
  }
}
