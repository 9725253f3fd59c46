/** The WebGL context as the core sees it: a recorder of abstract events.
    Buffer creation hands out fresh ids; uploads, attribute bindings, uniform
    writes and draw calls are appended to `log`. A draw event carries the
    shader uniforms in force when it was issued, so what a draw shows can be
    read off the log. Actual rasterisation is not modelled. */
module Gl {
  import opened Maths
  import opened Results
  import opened Shading

  /** The three vertex attributes of the shader (a_Position, a_Normal, a_UV). */
  datatype Attribute = Position | Normal | UV

  /** Draw topologies the core uses (gl.TRIANGLES, gl.TRIANGLE_STRIP). */
  datatype Mode = Triangles | TriangleStrip

  datatype Event =
    | Created(id: nat)                                  // createBuffer
    | Uploaded(id: nat, data: seq<real>)                       // bindBuffer + bufferData(STATIC_DRAW)
    | AttributeBound(attr: Attribute, buffer: Option<nat>, size: nat)  // bindBuffer + vertexAttribPointer + enable
    | WhichTextureSet(n: int)                                // uniform1i(u_whichTexture, n)
    | FragColorSet(c: Color4)                                // uniform4f(u_FragColor, ...)
    | FrameSet(f: FrameUniforms)                             // the per-frame uniform writes of renderAllShapes
    | Cleared                                                // clear(COLOR | DEPTH)
    | Drawn(mode: Mode, first: int, count: int, frame: FrameUniforms, material: MaterialUniforms)  // drawArrays

  /** Every uniform starts at zero in a freshly linked program. */
  const ZeroFrame: FrameUniforms :=
    FrameUniforms(0, Vec3(0.0, 0.0, 0.0), Vec3(0.0, 0.0, 0.0), Vec3(0.0, 0.0, 0.0), 0, 0, 0, Vec3(0.0, 0.0, 0.0), 0.0)
  const ZeroMaterial: MaterialUniforms := MaterialUniforms(0, Color4(0.0, 0.0, 0.0, 0.0))

  class Context {
    var nextBuffer: nat              // id the next createBuffer returns
    var frame: FrameUniforms         // per-frame uniforms currently set
    var material: MaterialUniforms   // per-draw uniforms currently set
    var log: seq<Event>

    constructor ()
      ensures nextBuffer == 0 && frame == ZeroFrame && material == ZeroMaterial && log == []
    {
      nextBuffer, frame, material, log := 0, ZeroFrame, ZeroMaterial, [];
    }

    method CreateBuffer() returns (id: nat)
      modifies this`nextBuffer, this`log
      ensures id == old(nextBuffer) && nextBuffer == id + 1
      ensures log == old(log) + [Created(id)]
    {
      id := nextBuffer;
      nextBuffer := nextBuffer + 1;
      log := log + [Created(id)];
    }

    method BufferData(id: nat, data: seq<real>)
      modifies this`log
      ensures log == old(log) + [Uploaded(id, data)]
    {
      log := log + [Uploaded(id, data)];
    }

    method VertexAttribute(attr: Attribute, buffer: Option<nat>, size: nat)
      modifies this`log
      ensures log == old(log) + [AttributeBound(attr, buffer, size)]
    {
      log := log + [AttributeBound(attr, buffer, size)];
    }

    method SetWhichTexture(n: int)
      modifies this`material, this`log
      ensures material == old(material).(whichTexture := n)
      ensures log == old(log) + [WhichTextureSet(n)]
    {
      material := material.(whichTexture := n);
      log := log + [WhichTextureSet(n)];
    }

    method SetFragColor(c: Color4)
      modifies this`material, this`log
      ensures material == old(material).(fragColor := c)
      ensures log == old(log) + [FragColorSet(c)]
    {
      material := material.(fragColor := c);
      log := log + [FragColorSet(c)];
    }

    method SetFrame(f: FrameUniforms)
      modifies this`frame, this`log
      ensures frame == f
      ensures log == old(log) + [FrameSet(f)]
    {
      frame := f;
      log := log + [FrameSet(f)];
    }

    method Clear()
      modifies this`log
      ensures log == old(log) + [Cleared]
    {
      log := log + [Cleared];
    }

    method DrawArrays(mode: Mode, first: int, count: int)
      modifies this`log
      ensures log == old(log) + [Drawn(mode, first, count, frame, material)]
    {
      log := log + [Drawn(mode, first, count, frame, material)];
    }
  }
}
