# HDRP shader-variant stripping, modelled in Dafny

Before a player build, the HD render pipeline's editor hook `HDRPreprocessShaders` receives the list of compiled variants of each shader pass. It shows every variant to each registered stripper and removes those that some stripper rejects. The common stripper, `CommonShaderPreprocessor.ShadersStripper`, rejects a variant in these cases:

- it enables a shadow keyword of a quality other than the configured one;
- it belongs to the scene-selection pass;
- it belongs to the motion-vector pass while motion vectors are unsupported;
- it combines transparency with tile lighting;
- it enables debug display, LOD cross-fade or light layers while the matching feature is off;
- it enables a decal keyword that the decal settings make unreachable.

The project has four files:

- `rendering.dfy` (module `Rendering`): the records the stripper reads. These are the pipeline asset and its settings, shader keywords, the variant (its enabled-keyword set), the pass and the shader.
- `common_shader_preprocessor.dfy` (module `CommonShaderPreprocessor`):
  - `ShadersStripper` keeps the source's chain of early returns.
  - The keyword constants inherited from the base class are a record, `BaseShaderPreprocessor`, whose `Valid()` says the feature keywords are distinct from each other and from the shadow keywords.
  - `Rule`/`Fires` state each early return as an independent condition.
  - The lemmas prove that the chain is exactly "some rule fires", whatever the order of the rules. They also prove each rule's behaviour.
- `preprocess_shaders.dfy` (module `PreprocessShaders`):
  - The build callback is a class with the source's fields: the stripper list and the two running totals.
  - The variant list is an object whose `items` the callback changes in place with `RemoveAt`.
  - `Survivors` specifies the filter. Lemmas prove that the survivors are exactly the unstripped variants, in their original positions and order.
- `wrappers.dfy` (module `Wrappers`): `Option`, used for the pipeline asset, which the engine may not have.

The registered strippers are values of `ShaderPreprocessor`. Each is either the common stripper (`Common`) or any other stripper known only through its verdict function (`Other`).

## Model

| member | source | states |
|---|---|---|
| CommonShaderPreprocessor.StrippedIffSomeRuleFires | com.unity.render-pipelines.high-definition/Editor/BuildProcessors/HDRPreprocessShaders.cs:15-92 | The stripper returns true exactly when at least one of the independent rule conditions holds, and false exactly when none holds |
| CommonShaderPreprocessor.FirstMatchIsAnyMatch | com.unity.render-pipelines.high-definition/Editor/BuildProcessors/HDRPreprocessShaders.cs:15-92 | A chain of early `return true` rules ending in `return false` answers true exactly when some rule in it fires |
| CommonShaderPreprocessor.AnyRuleOrderGivesSameVerdict | com.unity.render-pipelines.high-definition/Editor/BuildProcessors/HDRPreprocessShaders.cs:15-92 | Trying the rules in any order that lists all of them gives the stripper's verdict, so reordering the rules changes nothing |
| CommonShaderPreprocessor.SourceOrderListsEveryRule | com.unity.render-pipelines.high-definition/Editor/BuildProcessors/HDRPreprocessShaders.cs:15-92 | The source's sequence of checks covers every rule |
| CommonShaderPreprocessor.SourceOrderGivesVerdict | com.unity.render-pipelines.high-definition/Editor/BuildProcessors/HDRPreprocessShaders.cs:15-92 | Trying the rules one by one in the source's order is the stripper |
| CommonShaderPreprocessor.ShadowQualityMismatchStripped | com.unity.render-pipelines.high-definition/Editor/BuildProcessors/HDRPreprocessShaders.cs:17-32 | A variant is dropped if it enables a punctual or directional shadow keyword whose quality differs from the configured one |
| CommonShaderPreprocessor.SceneSelectionPassStripped | com.unity.render-pipelines.high-definition/Editor/BuildProcessors/HDRPreprocessShaders.cs:34-36 | Every variant of the "SceneSelectionPass" pass is dropped, whatever the settings and keywords |
| CommonShaderPreprocessor.MotionVectorsStrippedWhenUnsupported | com.unity.render-pipelines.high-definition/Editor/BuildProcessors/HDRPreprocessShaders.cs:38-40 | Every variant of the "Motion Vectors" pass is dropped when `supportMotionVectors` is off |
| CommonShaderPreprocessor.TransparentTileLightingStripped | com.unity.render-pipelines.high-definition/Editor/BuildProcessors/HDRPreprocessShaders.cs:44-49 | A variant with both the transparent and the tile-lighting keyword is dropped |
| CommonShaderPreprocessor.OpaqueTileLightingIrrelevant | com.unity.render-pipelines.high-definition/Editor/BuildProcessors/HDRPreprocessShaders.cs:44-53 | For an opaque variant, the verdict is the same with or without the tile-lighting keyword |
| CommonShaderPreprocessor.DebugDisplayStrippedIffUnsupported | com.unity.render-pipelines.high-definition/Editor/BuildProcessors/HDRPreprocessShaders.cs:57-60 | With the debug-display keyword on, a variant is dropped exactly when `supportRuntimeDebugDisplay` is off or it would be dropped without that keyword |
| CommonShaderPreprocessor.LodCrossFadeStrippedIffUnsupported | com.unity.render-pipelines.high-definition/Editor/BuildProcessors/HDRPreprocessShaders.cs:62-63 | With the LOD cross-fade keyword on, a variant is dropped exactly when `supportDitheringCrossFade` is off or it would be dropped without that keyword |
| CommonShaderPreprocessor.DecalRules | com.unity.render-pipelines.high-definition/Editor/BuildProcessors/HDRPreprocessShaders.cs:65-86 | With decal support, DecalsOFF variants are dropped, and so are 3RT variants under `perChannelMask` and 4RT variants without it; without decal support, every 3RT or 4RT variant is dropped |
| CommonShaderPreprocessor.LightLayersStrippedIffUnsupported | com.unity.render-pipelines.high-definition/Editor/BuildProcessors/HDRPreprocessShaders.cs:89-90 | With the light-layers keyword on, a variant is dropped exactly when `supportLightLayers` is off or it would be dropped without that keyword |
| PreprocessShaders.StrippersCumulate | com.unity.render-pipelines.high-definition/Editor/BuildProcessors/HDRPreprocessShaders.cs:153-160 | The verdicts of the registered strippers cumulate: a concatenated list drops a variant exactly when either part drops it |
| PreprocessShaders.Survivors | com.unity.render-pipelines.high-definition/Editor/BuildProcessors/HDRPreprocessShaders.cs:149-166 | The filter never makes the list longer |
| PreprocessShaders.SurvivorsAreUnstripped | com.unity.render-pipelines.high-definition/Editor/BuildProcessors/HDRPreprocessShaders.cs:149-166 | A variant survives exactly when it was in the input and no registered stripper drops it |
| PreprocessShaders.SurvivorsKeepOriginalOrder | com.unity.render-pipelines.high-definition/Editor/BuildProcessors/HDRPreprocessShaders.cs:149-166 | Each survivor comes from an input position kept exactly when no stripper drops its variant, and survivors keep their original relative order |
| PreprocessShaders.SurvivorsOfUnstripped | com.unity.render-pipelines.high-definition/Editor/BuildProcessors/HDRPreprocessShaders.cs:149-166 | A list in which no variant is dropped comes out unchanged |
| PreprocessShaders.SurvivorsIdempotent | com.unity.render-pipelines.high-definition/Editor/BuildProcessors/HDRPreprocessShaders.cs:149-166 | Filtering the survivors again removes nothing |
| PreprocessShaders.PartialFilterLength | com.unity.render-pipelines.high-definition/Editor/BuildProcessors/HDRPreprocessShaders.cs:149-166 | Partway through the loop the list is never longer than it started and never shorter than it ends |
| PreprocessShaders.OutputTallyBounds | com.unity.render-pipelines.high-definition/Editor/BuildProcessors/HDRPreprocessShaders.cs:149-169 | Over j iterations, the as-written output total grows by at least j times the number of variants kept and at most j times the number received, so a full pass of n variants adds n times the kept count or more instead of the kept count once |
| PreprocessShaders.OutputTallyWhenNothingStripped | com.unity.render-pipelines.high-definition/Editor/BuildProcessors/HDRPreprocessShaders.cs:168-169 | When nothing is stripped, the output total grows by the list length once per iteration |
| PreprocessShaders.ShaderCompilerDataList.RemoveAt | com.unity.render-pipelines.high-definition/Editor/BuildProcessors/HDRPreprocessShaders.cs:164 | Removing at an index drops that element and shifts the later ones down |
| PreprocessShaders.HDRPreprocessShaders.constructor | com.unity.render-pipelines.high-definition/Editor/BuildProcessors/HDRPreprocessShaders.cs:99-112 | The callback starts with the registered strippers and both totals at zero |
| PreprocessShaders.HDRPreprocessShaders.ShouldRemove | com.unity.render-pipelines.high-definition/Editor/BuildProcessors/HDRPreprocessShaders.cs:153-160 | Every registered stripper is asked, none skipped, and the variant is removed exactly when some stripper drops it |
| PreprocessShaders.HDRPreprocessShaders.VisitVariant | com.unity.render-pipelines.high-definition/Editor/BuildProcessors/HDRPreprocessShaders.cs:151-166 | One iteration removes the variant at the cursor exactly when it is stripped and leaves the rest of the list as it was |
| PreprocessShaders.HDRPreprocessShaders.OnProcessShader | com.unity.render-pipelines.high-definition/Editor/BuildProcessors/HDRPreprocessShaders.cs:134-172 | With no asset, or with stripping disallowed, the list and both totals are unchanged. Otherwise the list becomes its survivors, the input total grows by n·n for n variants received, and the output total grows by the list's length after each of the n iterations |
| PreprocessShaders.HDRPreprocessShaders.StripAndTallyEachIteration | com.unity.render-pipelines.high-definition/Editor/BuildProcessors/HDRPreprocessShaders.cs:147-171 | The loop visits each original variant once (n iterations). It leaves exactly the survivors in place and updates the totals on every iteration |
| PreprocessShaders.HDRPreprocessShaders.StripVariants | com.unity.render-pipelines.high-definition/Editor/BuildProcessors/HDRPreprocessShaders.cs:149-166 | The filter loop alone leaves exactly the survivors, in order |
| PreprocessShaders.HDRPreprocessShaders.OnProcessShaderCountingOnce | com.unity.render-pipelines.high-definition/Editor/BuildProcessors/HDRPreprocessShaders.cs:134-172 | Corrected totals: the same early exits and filter as `OnProcessShader`; the input total grows by the number of variants received and the output total by the number kept |
| PreprocessShaders.TotalsAsWrittenOnTwoKeptVariants | com.unity.render-pipelines.high-definition/Editor/BuildProcessors/HDRPreprocessShaders.cs:168-169 | As written: with the common stripper registered, two keyword-free variants of the "Forward" pass are both kept, yet each total grows by four |
| PreprocessShaders.TotalsCountedOnceOnTwoKeptVariants | com.unity.render-pipelines.high-definition/Editor/BuildProcessors/HDRPreprocessShaders.cs:168-169 | Corrected: on the same input each total grows by two |

## Left out

- `LogShaderVariants` (HDRPreprocessShaders.cs:115-130): it does float percentages, string formatting and `Debug.Log`. Its call on every iteration (line 170) is left out with it.
- `callbackOrder` (line 133) is the constant 0. It only tells the engine when to run the hook.
- The `GraphicsSettings.renderPipelineAsset` lookups (lines 108 and 137): they read the engine's global state. The asset is a parameter of type `Option`, and `None` stands for "no HDRP asset".
- The constructor's early return when no asset exists at construction (lines 109-110) is left out. It leaves `materialList` null, and that case depends on engine timing. The constructor takes the registered strippers as a parameter instead.
- `BaseShaderPreprocessor` and `HDEditorUtils.GetBaseShaderPreprocessorList` are not part of this model:
  - the keyword constants and the two shadow dictionaries are a parameter record;
  - other strippers are pure verdict functions, and any side effects they have are not modelled.
- The members of `HDShadowQuality` are not part of this model. Three levels are assumed, and no proof depends on how many there are.
- `ShaderCompilerData` and `ShaderSnippetData` keep only the fields the stripper reads: the enabled-keyword set and the pass name.
- The shadow-dictionary traversals (lines 20-32) are an existential over the dictionary's keys. They only ever return true, so the traversal order cannot change the verdict.
- PreprocessShaders.HDRPreprocessShaders.OnProcessShader: the totals are C# `int` and wrap past 2^31 - 1. The model uses unbounded integers, so it does not capture that overflow, which the n·n growth makes reachable on large passes.
- The list passed to the callback is its own object, separate from the callback. Aliasing between them is not modelled.
- The repository's other source files (`CameraCallbackTests.cs`, `CustomLWPipe.cs`, `EditorTests.cs`) are not modelled. They are render passes and asset-setter tests tied to the engine's command buffers, render targets and float settings.

## Findings

| source | as written | input that shows it | evidently intended | confidence | as-written member | corrected member |
|---|---|---|---|---|---|---|
| com.unity.render-pipelines.high-definition/Editor/BuildProcessors/HDRPreprocessShaders.cs:168-170 | The totals and the log call sit inside the `for` loop. Every iteration adds the full pre-stripping count to the input total and the list's current length to the output total. | A pass of two variants that no stripper drops: two variants are received and two kept, yet each total grows by 4. | Add the received count and the kept count once per call, after the loop. | high (not executed) | `PreprocessShaders.HDRPreprocessShaders.OnProcessShader`, shown by `PreprocessShaders.TotalsAsWrittenOnTwoKeptVariants` | `PreprocessShaders.HDRPreprocessShaders.OnProcessShaderCountingOnce`, shown by `PreprocessShaders.TotalsCountedOnceOnTwoKeptVariants` |
