/**
 * The engine-side records the shader stripper reads: the pipeline asset and its
 * settings, and the description of one shader variant. Only the fields the
 * stripper consults are kept.
 */
module Rendering {

  /** Shadow filtering quality of the pipeline (the enum's members are not part of this model; three are assumed). */
  datatype HDShadowQuality = Low | Medium | High

  /** Shadow settings of the pipeline: one quality for punctual lights and one for directional lights. */
  datatype HDShadowInitParameters = HDShadowInitParameters(
    punctualShadowQuality: HDShadowQuality,
    directionalShadowQuality: HDShadowQuality)

  /** Decal settings: whether decals write a per-channel mask (four render targets instead of three). */
  datatype GlobalDecalSettings = GlobalDecalSettings(perChannelMask: bool)

  /** The feature switches of the pipeline that decide which variants are reachable. */
  datatype RenderPipelineSettings = RenderPipelineSettings(
    supportMotionVectors: bool,
    supportRuntimeDebugDisplay: bool,
    supportDitheringCrossFade: bool,
    supportDecals: bool,
    supportLightLayers: bool,
    decalSettings: GlobalDecalSettings,
    hdShadowInitParams: HDShadowInitParameters)

  /** The pipeline asset: a master switch for stripping and the settings. */
  datatype HDRenderPipelineAsset = HDRenderPipelineAsset(
    allowShaderVariantStripping: bool,
    renderPipelineSettings: RenderPipelineSettings)

  /** A preprocessor keyword, identified by its name. */
  datatype ShaderKeyword = ShaderKeyword(name: string)

  /** One compiled variant, described by the set of keywords it enables. */
  datatype ShaderCompilerData = ShaderCompilerData(shaderKeywordSet: set<ShaderKeyword>)

  /** The pass a variant belongs to. */
  datatype ShaderSnippetData = ShaderSnippetData(passName: string)

  /** The shader being compiled. */
  datatype Shader = Shader(name: string)
}
