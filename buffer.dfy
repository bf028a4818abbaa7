/** The render-target record of src/buffer.ts: plain public fields, never changed after construction. */
module Buffers {
  import opened Gl
  import Textures

  /** new Buffer(gl, texture, target, buffer, attachment, level); `buffer` is a framebuffer. */
  datatype Buffer = Buffer(
    gl: GlContext?, texture: Textures.Texture, target: TexturePointer,
    buffer: Handle, attachment: BufferAttachment, level: int)
}
