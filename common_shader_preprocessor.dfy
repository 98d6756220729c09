/**
 * The common shader-variant stripper of the HD render pipeline: a predicate that
 * decides, from the pipeline settings, the pass name and the keywords a variant
 * enables, whether that variant can never be used and is dropped from the build.
 *
 * The source writes it as a chain of early `return true` statements ending in
 * `return false`. `ShadersStripper` keeps that chain; `Rule` and `Fires` state
 * each condition on its own, and the lemmas below prove that the chain is exactly
 * "some rule fires", in whatever order the rules are tried.
 */
module CommonShaderPreprocessor {
  import opened Rendering

  const SceneSelectionPassName: string := "SceneSelectionPass"
  const MotionVectorsPassName: string := "Motion Vectors"

  /**
   * The keyword constants every stripper inherits from its base class: the shadow
   * keyword for each quality level, and one keyword per feature.
   */
  datatype BaseShaderPreprocessor = BaseShaderPreprocessor(
    punctualShadowVariants: map<HDShadowQuality, ShaderKeyword>,
    directionalShadowVariants: map<HDShadowQuality, ShaderKeyword>,
    transparent: ShaderKeyword,
    tileLighting: ShaderKeyword,
    debugDisplay: ShaderKeyword,
    lodFadeCrossFade: ShaderKeyword,
    decalsOFF: ShaderKeyword,
    decals3RT: ShaderKeyword,
    decals4RT: ShaderKeyword,
    lightLayers: ShaderKeyword)
  {
    /** The feature keywords. */
    function FeatureKeywords(): (r: set<ShaderKeyword>)
      ensures |r| <= 8
    {
      {transparent, tileLighting, debugDisplay, lodFadeCrossFade, decalsOFF, decals3RT, decals4RT, lightLayers}
    }

    /** The feature keywords are pairwise distinct, and none of them is a shadow keyword. */
    predicate Valid()
    {
      && transparent !in {tileLighting, debugDisplay, lodFadeCrossFade, decalsOFF, decals3RT, decals4RT, lightLayers}
      && tileLighting !in {debugDisplay, lodFadeCrossFade, decalsOFF, decals3RT, decals4RT, lightLayers}
      && debugDisplay !in {lodFadeCrossFade, decalsOFF, decals3RT, decals4RT, lightLayers}
      && lodFadeCrossFade !in {decalsOFF, decals3RT, decals4RT, lightLayers}
      && decalsOFF !in {decals3RT, decals4RT, lightLayers}
      && decals3RT !in {decals4RT, lightLayers}
      && decals4RT != lightLayers
      && (forall q :: q in punctualShadowVariants ==> punctualShadowVariants[q] !in FeatureKeywords())
      && (forall q :: q in directionalShadowVariants ==> directionalShadowVariants[q] !in FeatureKeywords())
    }
  }

  /**
   * The traversal of one shadow dictionary: some entry whose quality is not the
   * configured one has its keyword enabled. The traversal only ever returns true,
   * so the order in which the dictionary is visited does not matter.
   */
  predicate ShadowVariantMismatch(variants: map<HDShadowQuality, ShaderKeyword>, configured: HDShadowQuality,
                                  enabled: set<ShaderKeyword>)
  {
    exists q :: q in variants && q != configured && variants[q] in enabled
  }

  /** True means "drop this variant": the rules of the source, tried in the source's order. */
  predicate ShadersStripper(k: BaseShaderPreprocessor, hdrpAsset: HDRenderPipelineAsset, shader: Shader,
                            snippet: ShaderSnippetData, inputData: ShaderCompilerData)
  {
    var settings := hdrpAsset.renderPipelineSettings;
    var shadowInitParams := settings.hdShadowInitParams;
    var enabled := inputData.shaderKeywordSet;
    if ShadowVariantMismatch(k.punctualShadowVariants, shadowInitParams.punctualShadowQuality, enabled) then true
    else if ShadowVariantMismatch(k.directionalShadowVariants, shadowInitParams.directionalShadowQuality, enabled) then true
    else if snippet.passName == SceneSelectionPassName then true
    else if !settings.supportMotionVectors && snippet.passName == MotionVectorsPassName then true
    // transparent variants use cluster lighting, never tile lighting; nothing is decided for opaque ones
    else if k.transparent in enabled && k.tileLighting in enabled then true
    else if !settings.supportRuntimeDebugDisplay && k.debugDisplay in enabled then true
    else if k.lodFadeCrossFade in enabled && !settings.supportDitheringCrossFade then true
    else if (if settings.supportDecals then
               || k.decalsOFF in enabled
               || (k.decals3RT in enabled && settings.decalSettings.perChannelMask)
               || (k.decals4RT in enabled && !settings.decalSettings.perChannelMask)
             else
               k.decals3RT in enabled || k.decals4RT in enabled) then true
    else if k.lightLayers in enabled && !settings.supportLightLayers then true
    else false
  }

  /** The stripping rules, one per early return of the source. */
  datatype Rule =
    | PunctualShadowQualityMismatch
    | DirectionalShadowQualityMismatch
    | SceneSelectionPass
    | MotionVectorsUnsupported
    | TransparentTileLighting
    | DebugDisplayUnsupported
    | LodCrossFadeUnsupported
    | DecalsOffWithDecals
    | Decals3RTWithPerChannelMask
    | Decals4RTWithoutPerChannelMask
    | DecalsWithoutDecalSupport
    | LightLayersUnsupported

  /** The condition of one rule, on its own. */
  predicate Fires(rule: Rule, k: BaseShaderPreprocessor, hdrpAsset: HDRenderPipelineAsset,
                  snippet: ShaderSnippetData, inputData: ShaderCompilerData)
  {
    var settings := hdrpAsset.renderPipelineSettings;
    var enabled := inputData.shaderKeywordSet;
    match rule
    case PunctualShadowQualityMismatch =>
      ShadowVariantMismatch(k.punctualShadowVariants, settings.hdShadowInitParams.punctualShadowQuality, enabled)
    case DirectionalShadowQualityMismatch =>
      ShadowVariantMismatch(k.directionalShadowVariants, settings.hdShadowInitParams.directionalShadowQuality, enabled)
    case SceneSelectionPass => snippet.passName == SceneSelectionPassName
    case MotionVectorsUnsupported => snippet.passName == MotionVectorsPassName && !settings.supportMotionVectors
    case TransparentTileLighting => k.transparent in enabled && k.tileLighting in enabled
    case DebugDisplayUnsupported => k.debugDisplay in enabled && !settings.supportRuntimeDebugDisplay
    case LodCrossFadeUnsupported => k.lodFadeCrossFade in enabled && !settings.supportDitheringCrossFade
    case DecalsOffWithDecals => settings.supportDecals && k.decalsOFF in enabled
    case Decals3RTWithPerChannelMask =>
      settings.supportDecals && settings.decalSettings.perChannelMask && k.decals3RT in enabled
    case Decals4RTWithoutPerChannelMask =>
      settings.supportDecals && !settings.decalSettings.perChannelMask && k.decals4RT in enabled
    case DecalsWithoutDecalSupport => !settings.supportDecals && (k.decals3RT in enabled || k.decals4RT in enabled)
    case LightLayersUnsupported => k.lightLayers in enabled && !settings.supportLightLayers
  }

  /** The order in which the source tries the rules. */
  const SourceOrder: seq<Rule> := [
    PunctualShadowQualityMismatch, DirectionalShadowQualityMismatch, SceneSelectionPass,
    MotionVectorsUnsupported, TransparentTileLighting, DebugDisplayUnsupported, LodCrossFadeUnsupported,
    DecalsOffWithDecals, Decals3RTWithPerChannelMask, Decals4RTWithoutPerChannelMask,
    DecalsWithoutDecalSupport, LightLayersUnsupported]

  /** Tries `rules` one after another and answers true at the first one that fires. */
  predicate FirstMatch(rules: seq<Rule>, k: BaseShaderPreprocessor, hdrpAsset: HDRenderPipelineAsset,
                       snippet: ShaderSnippetData, inputData: ShaderCompilerData)
  {
    if rules == [] then false
    else if Fires(rules[0], k, hdrpAsset, snippet, inputData) then true
    else FirstMatch(rules[1..], k, hdrpAsset, snippet, inputData)
  }

  /** Variant data with one keyword switched on or off. */
  function WithKeyword(inputData: ShaderCompilerData, kw: ShaderKeyword, on: bool): (r: ShaderCompilerData)
    ensures kw in r.shaderKeywordSet <==> on
    ensures r.shaderKeywordSet - {kw} == inputData.shaderKeywordSet - {kw}
  {
    if on then inputData.(shaderKeywordSet := inputData.shaderKeywordSet + {kw})
    else inputData.(shaderKeywordSet := inputData.shaderKeywordSet - {kw})
  }

  // ---------------------------------------------------------------------------
  // The rules as a disjunction

  /** An early-return chain answers true exactly when one of its rules fires. */
  lemma {:induction false} FirstMatchIsAnyMatch(rules: seq<Rule>, k: BaseShaderPreprocessor,
                                                hdrpAsset: HDRenderPipelineAsset, snippet: ShaderSnippetData,
                                                inputData: ShaderCompilerData)
    ensures FirstMatch(rules, k, hdrpAsset, snippet, inputData)
        <==> exists i :: 0 <= i < |rules| && Fires(rules[i], k, hdrpAsset, snippet, inputData)
  {
    if rules != [] {
      FirstMatchIsAnyMatch(rules[1..], k, hdrpAsset, snippet, inputData);
      if exists i :: 0 <= i < |rules| && Fires(rules[i], k, hdrpAsset, snippet, inputData) {
        var i :| 0 <= i < |rules| && Fires(rules[i], k, hdrpAsset, snippet, inputData);
        if i > 0 {
          assert rules[1..][i - 1] == rules[i];
        }
      }
      if FirstMatch(rules[1..], k, hdrpAsset, snippet, inputData) {
        var i :| 0 <= i < |rules[1..]| && Fires(rules[1..][i], k, hdrpAsset, snippet, inputData);
        assert rules[1..][i] == rules[i + 1];
      }
    }
  }

  /** The stripper drops a variant exactly when at least one rule fires for it. */
  lemma StrippedIffSomeRuleFires(k: BaseShaderPreprocessor, hdrpAsset: HDRenderPipelineAsset, shader: Shader,
                                 snippet: ShaderSnippetData, inputData: ShaderCompilerData)
    ensures ShadersStripper(k, hdrpAsset, shader, snippet, inputData)
        ==> exists rule :: Fires(rule, k, hdrpAsset, snippet, inputData)
    ensures (exists rule :: Fires(rule, k, hdrpAsset, snippet, inputData))
        ==> ShadersStripper(k, hdrpAsset, shader, snippet, inputData)
  {
    var settings := hdrpAsset.renderPipelineSettings;
    var enabled := inputData.shaderKeywordSet;
    if ShadersStripper(k, hdrpAsset, shader, snippet, inputData) {
      var rule :=
        if Fires(PunctualShadowQualityMismatch, k, hdrpAsset, snippet, inputData) then PunctualShadowQualityMismatch
        else if Fires(DirectionalShadowQualityMismatch, k, hdrpAsset, snippet, inputData) then DirectionalShadowQualityMismatch
        else if Fires(SceneSelectionPass, k, hdrpAsset, snippet, inputData) then SceneSelectionPass
        else if Fires(MotionVectorsUnsupported, k, hdrpAsset, snippet, inputData) then MotionVectorsUnsupported
        else if Fires(TransparentTileLighting, k, hdrpAsset, snippet, inputData) then TransparentTileLighting
        else if Fires(DebugDisplayUnsupported, k, hdrpAsset, snippet, inputData) then DebugDisplayUnsupported
        else if Fires(LodCrossFadeUnsupported, k, hdrpAsset, snippet, inputData) then LodCrossFadeUnsupported
        else if Fires(DecalsOffWithDecals, k, hdrpAsset, snippet, inputData) then DecalsOffWithDecals
        else if Fires(Decals3RTWithPerChannelMask, k, hdrpAsset, snippet, inputData) then Decals3RTWithPerChannelMask
        else if Fires(Decals4RTWithoutPerChannelMask, k, hdrpAsset, snippet, inputData) then Decals4RTWithoutPerChannelMask
        else if Fires(DecalsWithoutDecalSupport, k, hdrpAsset, snippet, inputData) then DecalsWithoutDecalSupport
        else LightLayersUnsupported;
      assert Fires(rule, k, hdrpAsset, snippet, inputData);
    }
  }

  /** Every rule appears in the source's order. */
  lemma SourceOrderListsEveryRule()
    ensures forall rule: Rule :: rule in SourceOrder
  {
    forall rule: Rule ensures rule in SourceOrder {
      match rule
      case PunctualShadowQualityMismatch => assert SourceOrder[0] == rule;
      case DirectionalShadowQualityMismatch => assert SourceOrder[1] == rule;
      case SceneSelectionPass => assert SourceOrder[2] == rule;
      case MotionVectorsUnsupported => assert SourceOrder[3] == rule;
      case TransparentTileLighting => assert SourceOrder[4] == rule;
      case DebugDisplayUnsupported => assert SourceOrder[5] == rule;
      case LodCrossFadeUnsupported => assert SourceOrder[6] == rule;
      case DecalsOffWithDecals => assert SourceOrder[7] == rule;
      case Decals3RTWithPerChannelMask => assert SourceOrder[8] == rule;
      case Decals4RTWithoutPerChannelMask => assert SourceOrder[9] == rule;
      case DecalsWithoutDecalSupport => assert SourceOrder[10] == rule;
      case LightLayersUnsupported => assert SourceOrder[11] == rule;
    }
  }

  /**
   * Trying the rules in any order that lists all of them gives the stripper's
   * verdict: the rules are independent, and reordering them changes nothing.
   */
  lemma AnyRuleOrderGivesSameVerdict(rules: seq<Rule>, k: BaseShaderPreprocessor, hdrpAsset: HDRenderPipelineAsset,
                                     shader: Shader, snippet: ShaderSnippetData, inputData: ShaderCompilerData)
    requires forall rule: Rule :: rule in rules
    ensures FirstMatch(rules, k, hdrpAsset, snippet, inputData) == ShadersStripper(k, hdrpAsset, shader, snippet, inputData)
  {
    FirstMatchIsAnyMatch(rules, k, hdrpAsset, snippet, inputData);
    StrippedIffSomeRuleFires(k, hdrpAsset, shader, snippet, inputData);
    if ShadersStripper(k, hdrpAsset, shader, snippet, inputData) {
      var rule :| Fires(rule, k, hdrpAsset, snippet, inputData);
      assert rule in rules;
      var i :| 0 <= i < |rules| && rules[i] == rule;
    }
  }

  /** The source's own order is one such order. */
  lemma SourceOrderGivesVerdict(k: BaseShaderPreprocessor, hdrpAsset: HDRenderPipelineAsset, shader: Shader,
                                snippet: ShaderSnippetData, inputData: ShaderCompilerData)
    ensures FirstMatch(SourceOrder, k, hdrpAsset, snippet, inputData) == ShadersStripper(k, hdrpAsset, shader, snippet, inputData)
  {
    SourceOrderListsEveryRule();
    AnyRuleOrderGivesSameVerdict(SourceOrder, k, hdrpAsset, shader, snippet, inputData);
  }

  // ---------------------------------------------------------------------------
  // The rules one by one

  /** A variant enabling the keyword of a shadow quality other than the configured one is dropped. */
  lemma ShadowQualityMismatchStripped(k: BaseShaderPreprocessor, hdrpAsset: HDRenderPipelineAsset, shader: Shader,
                                      snippet: ShaderSnippetData, inputData: ShaderCompilerData, q: HDShadowQuality)
    requires var shadows := hdrpAsset.renderPipelineSettings.hdShadowInitParams;
      || (q in k.punctualShadowVariants && q != shadows.punctualShadowQuality
          && k.punctualShadowVariants[q] in inputData.shaderKeywordSet)
      || (q in k.directionalShadowVariants && q != shadows.directionalShadowQuality
          && k.directionalShadowVariants[q] in inputData.shaderKeywordSet)
    ensures ShadersStripper(k, hdrpAsset, shader, snippet, inputData)
  {
  }

  /** Every variant of the scene-selection pass is dropped, whatever the settings. */
  lemma SceneSelectionPassStripped(k: BaseShaderPreprocessor, hdrpAsset: HDRenderPipelineAsset, shader: Shader,
                                   snippet: ShaderSnippetData, inputData: ShaderCompilerData)
    requires snippet.passName == "SceneSelectionPass"
    ensures ShadersStripper(k, hdrpAsset, shader, snippet, inputData)
  {
  }

  /** Every variant of the motion-vector pass is dropped when motion vectors are unsupported. */
  lemma MotionVectorsStrippedWhenUnsupported(k: BaseShaderPreprocessor, hdrpAsset: HDRenderPipelineAsset,
                                             shader: Shader, snippet: ShaderSnippetData, inputData: ShaderCompilerData)
    requires snippet.passName == "Motion Vectors" && !hdrpAsset.renderPipelineSettings.supportMotionVectors
    ensures ShadersStripper(k, hdrpAsset, shader, snippet, inputData)
  {
  }

  /** A transparent variant with tile lighting is dropped. */
  lemma TransparentTileLightingStripped(k: BaseShaderPreprocessor, hdrpAsset: HDRenderPipelineAsset, shader: Shader,
                                        snippet: ShaderSnippetData, inputData: ShaderCompilerData)
    requires k.transparent in inputData.shaderKeywordSet && k.tileLighting in inputData.shaderKeywordSet
    ensures ShadersStripper(k, hdrpAsset, shader, snippet, inputData)
  {
  }

  /** Tile lighting never decides anything for an opaque variant: with or without it, the verdict is the same. */
  lemma OpaqueTileLightingIrrelevant(k: BaseShaderPreprocessor, hdrpAsset: HDRenderPipelineAsset, shader: Shader,
                                     snippet: ShaderSnippetData, inputData: ShaderCompilerData)
    requires k.Valid() && k.transparent !in inputData.shaderKeywordSet
    ensures ShadersStripper(k, hdrpAsset, shader, snippet, WithKeyword(inputData, k.tileLighting, true))
         == ShadersStripper(k, hdrpAsset, shader, snippet, WithKeyword(inputData, k.tileLighting, false))
  {
  }

  /**
   * Enabling the debug-display keyword drops a variant exactly when runtime debug
   * display is unsupported; otherwise the verdict is the one without the keyword.
   */
  lemma DebugDisplayStrippedIffUnsupported(k: BaseShaderPreprocessor, hdrpAsset: HDRenderPipelineAsset, shader: Shader,
                                           snippet: ShaderSnippetData, inputData: ShaderCompilerData)
    requires k.Valid()
    ensures ShadersStripper(k, hdrpAsset, shader, snippet, WithKeyword(inputData, k.debugDisplay, true))
        == (!hdrpAsset.renderPipelineSettings.supportRuntimeDebugDisplay
            || ShadersStripper(k, hdrpAsset, shader, snippet, WithKeyword(inputData, k.debugDisplay, false)))
  {
  }

  /**
   * Enabling the LOD cross-fade keyword drops a variant exactly when dithering
   * cross-fade is unsupported; otherwise the verdict is the one without the keyword.
   */
  lemma LodCrossFadeStrippedIffUnsupported(k: BaseShaderPreprocessor, hdrpAsset: HDRenderPipelineAsset, shader: Shader,
                                           snippet: ShaderSnippetData, inputData: ShaderCompilerData)
    requires k.Valid()
    ensures ShadersStripper(k, hdrpAsset, shader, snippet, WithKeyword(inputData, k.lodFadeCrossFade, true))
        == (!hdrpAsset.renderPipelineSettings.supportDitheringCrossFade
            || ShadersStripper(k, hdrpAsset, shader, snippet, WithKeyword(inputData, k.lodFadeCrossFade, false)))
  {
  }

  /**
   * Enabling the light-layers keyword drops a variant exactly when light layers
   * are unsupported; otherwise the verdict is the one without the keyword.
   */
  lemma LightLayersStrippedIffUnsupported(k: BaseShaderPreprocessor, hdrpAsset: HDRenderPipelineAsset, shader: Shader,
                                          snippet: ShaderSnippetData, inputData: ShaderCompilerData)
    requires k.Valid()
    ensures ShadersStripper(k, hdrpAsset, shader, snippet, WithKeyword(inputData, k.lightLayers, true))
        == (!hdrpAsset.renderPipelineSettings.supportLightLayers
            || ShadersStripper(k, hdrpAsset, shader, snippet, WithKeyword(inputData, k.lightLayers, false)))
  {
  }

  /**
   * The decal rules: with decal support, the no-decal variant is dropped, and so
   * is the three-target variant under a per-channel mask and the four-target one
   * without it; without decal support, every three- or four-target variant is dropped.
   */
  lemma DecalRules(k: BaseShaderPreprocessor, hdrpAsset: HDRenderPipelineAsset, shader: Shader,
                   snippet: ShaderSnippetData, inputData: ShaderCompilerData)
    ensures var settings, enabled := hdrpAsset.renderPipelineSettings, inputData.shaderKeywordSet;
      settings.supportDecals ==>
        && (k.decalsOFF in enabled ==> ShadersStripper(k, hdrpAsset, shader, snippet, inputData))
        && (k.decals3RT in enabled && settings.decalSettings.perChannelMask
            ==> ShadersStripper(k, hdrpAsset, shader, snippet, inputData))
        && (k.decals4RT in enabled && !settings.decalSettings.perChannelMask
            ==> ShadersStripper(k, hdrpAsset, shader, snippet, inputData))
    ensures var settings, enabled := hdrpAsset.renderPipelineSettings, inputData.shaderKeywordSet;
      (!settings.supportDecals && (k.decals3RT in enabled || k.decals4RT in enabled))
      ==> ShadersStripper(k, hdrpAsset, shader, snippet, inputData)
  {
  }
}
