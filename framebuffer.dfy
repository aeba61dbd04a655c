// The framebuffer geometry both renderers share: one framebuffer object holds
// the two eye textures side by side, and each eye renders into its own half.
module Framebuffer {
  import opened Ovr

  /** What QOpenGLFramebufferObjectFormat is set to: a depth attachment on a 2D texture target. */
  datatype FboFormat = FboFormat(depthAttachment: bool, texture2D: bool)

  const RendererFboFormat: FboFormat := FboFormat(true, true)

  /** An allocated framebuffer object: its size, its format and its colour texture. */
  datatype Fbo = Fbo(size: Size, format: FboFormat, texture: nat)

  /**
   * ovrGLTexture as the renderers fill it in: the framebuffer's texture and size,
   * and the eye's viewport inside it.
   */
  datatype TextureConfig = TextureConfig(texId: nat, textureSize: Size, viewport: Rect)

  /** What `new ovrGLTexture[2]` holds before the first framebuffer is allocated. */
  const BlankTextureConfig: TextureConfig := TextureConfig(0, Size(0, 0), Rect(0, 0, 0, 0))

  /**
   * The framebuffer size for two eye texture sizes: the widths side by side, and
   * the larger of the two heights.
   */
  function FboSize(left: Size, right: Size): (s: Size)
    ensures s.w == left.w + right.w
    ensures s.h >= left.h && s.h >= right.h
    ensures s.h == left.h || s.h == right.h
  {
    Size(left.w + right.w, if left.h < right.h then right.h else left.h)
  }

  /**
   * `QRect(i * ((w + 1) * 0.5f), 0, w * 0.5f, h)`: the float products are
   * truncated to int, which for w >= 0 is division by two rounded down.
   */
  function EyeViewport(i: nat, size: Size): (r: Rect)
    requires i < 2
    ensures r.y == 0 && r.height == size.h
    ensures r.width == size.w / 2 && 2 * r.width <= size.w
    ensures 0 <= r.x && r.x + r.width <= size.w
    ensures i == 0 ==> r.x == 0
    ensures i == 1 ==> r.x + r.width == size.w
  {
    Rect(i * ((size.w + 1) / 2), 0, size.w / 2, size.h)
  }

  /**
   * The two viewports do not overlap: the left one ends where the right one
   * starts, or one column before it when the width is odd.
   */
  lemma EyeViewportsDisjoint(size: Size)
    ensures EyeViewport(0, size).x + EyeViewport(0, size).width + size.w % 2 == EyeViewport(1, size).x
    ensures EyeViewport(0, size).width == EyeViewport(1, size).width
  {
  }

  /** The viewport recorded for eye i of a framebuffer, in both the texture header and the eye's own state. */
  function EyeTextureConfig(i: nat, fbo: Fbo): (t: TextureConfig)
    requires i < 2
    ensures t.texId == fbo.texture && t.textureSize == fbo.size
    ensures t.viewport == EyeViewport(i, fbo.size)
  {
    TextureConfig(fbo.texture, fbo.size, EyeViewport(i, fbo.size))
  }
}
