/**
 * The build callback that filters the variants of one shader pass: every variant
 * is shown to each registered stripper, and a variant that any of them rejects is
 * removed from the list in place. Two counters accumulate variant totals.
 */
module PreprocessShaders {
  import opened Wrappers
  import opened Rendering
  import CommonShaderPreprocessor

  /**
   * A registered stripper: the common one of the pipeline, or any other one,
   * known only through its verdict.
   */
  datatype ShaderPreprocessor =
    | Common(keywords: CommonShaderPreprocessor.BaseShaderPreprocessor)
    | Other(shadersStripper: (HDRenderPipelineAsset, Shader, ShaderSnippetData, ShaderCompilerData) -> bool)

  /** The verdict of one stripper: true means "drop this variant". */
  predicate Strips(p: ShaderPreprocessor, hdrpAsset: HDRenderPipelineAsset, shader: Shader,
                   snippet: ShaderSnippetData, inputData: ShaderCompilerData)
  {
    match p
    case Common(keywords) => CommonShaderPreprocessor.ShadersStripper(keywords, hdrpAsset, shader, snippet, inputData)
    case Other(shadersStripper) => shadersStripper(hdrpAsset, shader, snippet, inputData)
  }

  /** The strippers' verdicts combined: some stripper in `strippers` drops the variant. */
  predicate Stripped(strippers: seq<ShaderPreprocessor>, hdrpAsset: HDRenderPipelineAsset, shader: Shader,
                     snippet: ShaderSnippetData, inputData: ShaderCompilerData)
  {
    exists t :: 0 <= t < |strippers| && Strips(strippers[t], hdrpAsset, shader, snippet, inputData)
  }

  /** The variants of `s` that no stripper drops, in their original order. */
  function Survivors(strippers: seq<ShaderPreprocessor>, hdrpAsset: HDRenderPipelineAsset, shader: Shader,
                     snippet: ShaderSnippetData, s: seq<ShaderCompilerData>): (r: seq<ShaderCompilerData>)
    ensures |r| <= |s|
    decreases |s|
  {
    if s == [] then []
    else
      var kept := Survivors(strippers, hdrpAsset, shader, snippet, s[..|s| - 1]);
      if Stripped(strippers, hdrpAsset, shader, snippet, s[|s| - 1]) then kept else kept + [s[|s| - 1]]
  }

  /** The positions of the variants of `s` that no stripper drops, in increasing order. */
  ghost function KeptPositions(strippers: seq<ShaderPreprocessor>, hdrpAsset: HDRenderPipelineAsset, shader: Shader,
                               snippet: ShaderSnippetData, s: seq<ShaderCompilerData>): (r: seq<int>)
    decreases |s|
  {
    if s == [] then []
    else
      var kept := KeptPositions(strippers, hdrpAsset, shader, snippet, s[..|s| - 1]);
      if Stripped(strippers, hdrpAsset, shader, snippet, s[|s| - 1]) then kept else kept + [|s| - 1]
  }

  /**
   * What the as-written loop adds to the output counter over its first `j`
   * iterations: after each one, the length of the list at that moment (the
   * survivors among the variants visited so far plus the variants not yet visited).
   */
  ghost function OutputTally(strippers: seq<ShaderPreprocessor>, hdrpAsset: HDRenderPipelineAsset, shader: Shader,
                             snippet: ShaderSnippetData, s: seq<ShaderCompilerData>, j: nat): (r: int)
    requires j <= |s|
  {
    if j == 0 then 0
    else OutputTally(strippers, hdrpAsset, shader, snippet, s, j - 1)
         + |Survivors(strippers, hdrpAsset, shader, snippet, s[..j])| + (|s| - j)
  }

  /** Stripping is off when there is no pipeline asset or the asset disallows it. */
  predicate StrippingDisabled(hdPipelineAsset: Option<HDRenderPipelineAsset>)
  {
    hdPipelineAsset.None? || !hdPipelineAsset.value.allowShaderVariantStripping
  }

  // ---------------------------------------------------------------------------
  // Properties of the filter

  /** Strippers cumulate: a list of strippers drops a variant when either part of it does. */
  lemma StrippersCumulate(first: seq<ShaderPreprocessor>, second: seq<ShaderPreprocessor>,
                          hdrpAsset: HDRenderPipelineAsset, shader: Shader, snippet: ShaderSnippetData,
                          inputData: ShaderCompilerData)
    ensures Stripped(first + second, hdrpAsset, shader, snippet, inputData)
        == (Stripped(first, hdrpAsset, shader, snippet, inputData) || Stripped(second, hdrpAsset, shader, snippet, inputData))
  {
    var all := first + second;
    if Stripped(all, hdrpAsset, shader, snippet, inputData) {
      var t :| 0 <= t < |all| && Strips(all[t], hdrpAsset, shader, snippet, inputData);
      if t < |first| {
        assert all[t] == first[t];
      } else {
        assert all[t] == second[t - |first|];
      }
    }
    if Stripped(first, hdrpAsset, shader, snippet, inputData) {
      var t :| 0 <= t < |first| && Strips(first[t], hdrpAsset, shader, snippet, inputData);
      assert all[t] == first[t];
    }
    if Stripped(second, hdrpAsset, shader, snippet, inputData) {
      var t :| 0 <= t < |second| && Strips(second[t], hdrpAsset, shader, snippet, inputData);
      assert all[|first| + t] == second[t];
    }
  }

  /** A variant survives exactly when it was in the input and no stripper drops it. */
  lemma {:induction false} SurvivorsAreUnstripped(strippers: seq<ShaderPreprocessor>, hdrpAsset: HDRenderPipelineAsset,
                                                  shader: Shader, snippet: ShaderSnippetData,
                                                  s: seq<ShaderCompilerData>, v: ShaderCompilerData)
    ensures v in Survivors(strippers, hdrpAsset, shader, snippet, s)
        <==> v in s && !Stripped(strippers, hdrpAsset, shader, snippet, v)
    decreases |s|
  {
    if s != [] {
      var init := s[..|s| - 1];
      SurvivorsAreUnstripped(strippers, hdrpAsset, shader, snippet, init, v);
      assert s == init + [s[|s| - 1]];
    }
  }

  /**
   * The survivors are the unstripped variants at their original positions, in
   * their original order: each position of the input is decided once, kept
   * exactly when no stripper drops its variant.
   */
  lemma {:induction false} SurvivorsKeepOriginalOrder(strippers: seq<ShaderPreprocessor>,
                                                      hdrpAsset: HDRenderPipelineAsset, shader: Shader,
                                                      snippet: ShaderSnippetData, s: seq<ShaderCompilerData>)
    ensures var r, pos := Survivors(strippers, hdrpAsset, shader, snippet, s),
                          KeptPositions(strippers, hdrpAsset, shader, snippet, s);
      && |pos| == |r|
      && (forall i :: 0 <= i < |pos| ==> 0 <= pos[i] < |s| && r[i] == s[pos[i]])
      && (forall i, j :: 0 <= i < j < |pos| ==> pos[i] < pos[j])
      && (forall j :: 0 <= j < |s| ==> (j in pos <==> !Stripped(strippers, hdrpAsset, shader, snippet, s[j])))
    decreases |s|
  {
    if s != [] {
      var init := s[..|s| - 1];
      SurvivorsKeepOriginalOrder(strippers, hdrpAsset, shader, snippet, init);
      var pos := KeptPositions(strippers, hdrpAsset, shader, snippet, init);
      assert forall i :: 0 <= i < |pos| ==> pos[i] < |init|;
      assert forall j :: 0 <= j < |init| ==> s[j] == init[j];
    }
  }

  /** A variant list in which nothing is stripped survives whole. */
  lemma {:induction false} SurvivorsOfUnstripped(strippers: seq<ShaderPreprocessor>, hdrpAsset: HDRenderPipelineAsset,
                                                 shader: Shader, snippet: ShaderSnippetData, s: seq<ShaderCompilerData>)
    requires forall i :: 0 <= i < |s| ==> !Stripped(strippers, hdrpAsset, shader, snippet, s[i])
    ensures Survivors(strippers, hdrpAsset, shader, snippet, s) == s
    decreases |s|
  {
    if s != [] {
      var init := s[..|s| - 1];
      assert forall i :: 0 <= i < |init| ==> init[i] == s[i];
      SurvivorsOfUnstripped(strippers, hdrpAsset, shader, snippet, init);
      assert s == init + [s[|s| - 1]];
    }
  }

  /** Filtering twice is filtering once: the survivors of the survivors are the survivors. */
  lemma {:induction false} SurvivorsIdempotent(strippers: seq<ShaderPreprocessor>, hdrpAsset: HDRenderPipelineAsset,
                                               shader: Shader, snippet: ShaderSnippetData, s: seq<ShaderCompilerData>)
    ensures var r := Survivors(strippers, hdrpAsset, shader, snippet, s);
      Survivors(strippers, hdrpAsset, shader, snippet, r) == r
  {
    var r := Survivors(strippers, hdrpAsset, shader, snippet, s);
    forall i | 0 <= i < |r| ensures !Stripped(strippers, hdrpAsset, shader, snippet, r[i]) {
      SurvivorsAreUnstripped(strippers, hdrpAsset, shader, snippet, s, r[i]);
    }
    SurvivorsOfUnstripped(strippers, hdrpAsset, shader, snippet, r);
  }

  /** When nothing is stripped, the as-written output tally after `j` iterations is `j` times the list length. */
  lemma {:induction false} OutputTallyWhenNothingStripped(strippers: seq<ShaderPreprocessor>,
                                                          hdrpAsset: HDRenderPipelineAsset, shader: Shader,
                                                          snippet: ShaderSnippetData, s: seq<ShaderCompilerData>, j: nat)
    requires j <= |s|
    requires forall i :: 0 <= i < |s| ==> !Stripped(strippers, hdrpAsset, shader, snippet, s[i])
    ensures OutputTally(strippers, hdrpAsset, shader, snippet, s, j) == j * |s|
  {
    if j > 0 {
      OutputTallyWhenNothingStripped(strippers, hdrpAsset, shader, snippet, s, j - 1);
      var prefix := s[..j];
      assert forall i :: 0 <= i < |prefix| ==> prefix[i] == s[i];
      SurvivorsOfUnstripped(strippers, hdrpAsset, shader, snippet, prefix);
    }
  }

  /** Visiting one more variant keeps it or drops it, and leaves the earlier survivors as they were. */
  lemma SurvivorsExtend(strippers: seq<ShaderPreprocessor>, hdrpAsset: HDRenderPipelineAsset, shader: Shader,
                        snippet: ShaderSnippetData, s: seq<ShaderCompilerData>, j: nat)
    requires j < |s|
    ensures Survivors(strippers, hdrpAsset, shader, snippet, s[..j + 1])
         == Survivors(strippers, hdrpAsset, shader, snippet, s[..j])
            + if Stripped(strippers, hdrpAsset, shader, snippet, s[j]) then [] else [s[j]]
  {
    assert s[..j + 1][..j] == s[..j];
  }

  /**
   * Stopping the filter after the first `k` variants leaves at least as many in
   * the list as filtering all of them, and never more than the list held.
   */
  lemma {:induction false} PartialFilterLength(strippers: seq<ShaderPreprocessor>, hdrpAsset: HDRenderPipelineAsset,
                                               shader: Shader, snippet: ShaderSnippetData,
                                               s: seq<ShaderCompilerData>, k: nat)
    requires k <= |s|
    ensures |Survivors(strippers, hdrpAsset, shader, snippet, s)|
         <= |Survivors(strippers, hdrpAsset, shader, snippet, s[..k])| + (|s| - k)
         <= |s|
    decreases |s| - k
  {
    if k == |s| {
      assert s[..k] == s;
    } else {
      PartialFilterLength(strippers, hdrpAsset, shader, snippet, s, k + 1);
      SurvivorsExtend(strippers, hdrpAsset, shader, snippet, s, k);
    }
  }

  /**
   * The as-written output tally over `j` iterations lies between `j` times the
   * number of variants kept and `j` times the number received: each iteration
   * adds the list's current length, which is never below the final count and
   * never above the original one.
   */
  lemma {:induction false} OutputTallyBounds(strippers: seq<ShaderPreprocessor>, hdrpAsset: HDRenderPipelineAsset,
                                             shader: Shader, snippet: ShaderSnippetData,
                                             s: seq<ShaderCompilerData>, j: nat)
    requires j <= |s|
    ensures j * |Survivors(strippers, hdrpAsset, shader, snippet, s)|
         <= OutputTally(strippers, hdrpAsset, shader, snippet, s, j)
         <= j * |s|
  {
    if j > 0 {
      var kept, n := |Survivors(strippers, hdrpAsset, shader, snippet, s)|, |s|;
      var before := OutputTally(strippers, hdrpAsset, shader, snippet, s, j - 1);
      var step := |Survivors(strippers, hdrpAsset, shader, snippet, s[..j])| + (n - j);
      OutputTallyBounds(strippers, hdrpAsset, shader, snippet, s, j - 1);
      PartialFilterLength(strippers, hdrpAsset, shader, snippet, s, j);
      BoundsStep(j, kept, n, before, step);
    }
  }

  /** Adding a step between `low` and `high` to a sum of `j - 1` such steps. */
  lemma BoundsStep(j: nat, low: int, high: int, before: int, step: int)
    requires j > 0
    requires (j - 1) * low <= before <= (j - 1) * high
    requires low <= step <= high
    ensures j * low <= before + step <= j * high
  {
    assert j * low == (j - 1) * low + low;
    assert j * high == (j - 1) * high + high;
  }

  /** One more iteration adds the list's length after it to the output tally. */
  lemma OutputTallyStep(strippers: seq<ShaderPreprocessor>, hdrpAsset: HDRenderPipelineAsset, shader: Shader,
                        snippet: ShaderSnippetData, s: seq<ShaderCompilerData>, j: nat)
    requires j < |s|
    ensures OutputTally(strippers, hdrpAsset, shader, snippet, s, j + 1)
         == OutputTally(strippers, hdrpAsset, shader, snippet, s, j)
            + |Survivors(strippers, hdrpAsset, shader, snippet, s[..j + 1]) + s[j + 1..]|
  {
  }

  /** `amount` added `times` times over. */
  ghost function RepeatedSum(amount: int, times: nat): (r: int)
  {
    if times == 0 then 0 else RepeatedSum(amount, times - 1) + amount
  }

  /** Adding `amount` `times` times over adds their product. */
  lemma {:induction false} RepeatedSumIsProduct(amount: int, times: nat)
    ensures RepeatedSum(amount, times) == times * amount
  {
    if times > 0 {
      RepeatedSumIsProduct(amount, times - 1);
      assert times * amount == (times - 1) * amount + amount;
    }
  }

  /** The list of variants the engine hands to the callback, changed in place. */
  class ShaderCompilerDataList {
    var items: seq<ShaderCompilerData>

    constructor (items: seq<ShaderCompilerData>)
      ensures this.items == items
    {
      this.items := items;
    }

    /** Removes the element at `index`, shifting the later ones down. */
    method RemoveAt(index: int)
      requires 0 <= index < |items|
      modifies this
      ensures items == old(items[..index] + items[index + 1..])
    {
      items := items[..index] + items[index + 1..];
    }
  }

  /** The build callback: the registered strippers and the two running totals. */
  class HDRPreprocessShaders {
    var materialList: seq<ShaderPreprocessor>
    var totalVariantsInputCount: int
    var totalVariantsOutputCount: int

    /** Starts with the strippers the pipeline registers and both totals at zero. */
    constructor (materialList: seq<ShaderPreprocessor>)
      ensures this.materialList == materialList
      ensures totalVariantsInputCount == 0 && totalVariantsOutputCount == 0
    {
      this.materialList := materialList;
      totalVariantsInputCount := 0;
      totalVariantsOutputCount := 0;
    }

    /** Asks every registered stripper about one variant (none is skipped) and combines the verdicts. */
    method ShouldRemove(hdPipelineAsset: HDRenderPipelineAsset, shader: Shader, snippet: ShaderSnippetData,
                        input: ShaderCompilerData) returns (removeInput: bool)
      ensures removeInput == Stripped(materialList, hdPipelineAsset, shader, snippet, input)
    {
      removeInput := false;
      for t := 0 to |materialList|
        invariant removeInput == exists u :: 0 <= u < t && Strips(materialList[u], hdPipelineAsset, shader, snippet, input)
      {
        if Strips(materialList[t], hdPipelineAsset, shader, snippet, input) {
          removeInput := true;
        }
      }
    }

    /**
     * The body of the filter loop for the variant at `i`, where the list holds the
     * survivors so far (`kept`) followed by the variants not yet visited (`rest`):
     * asks every stripper and removes the variant if any of them drops it.
     */
    method VisitVariant(hdPipelineAsset: HDRenderPipelineAsset, shader: Shader, snippet: ShaderSnippetData,
                        inputData: ShaderCompilerDataList, i: int,
                        ghost kept: seq<ShaderCompilerData>, ghost rest: seq<ShaderCompilerData>)
      returns (removeInput: bool)
      requires inputData.items == kept + rest && rest != [] && i == |kept|
      modifies inputData
      ensures removeInput == Stripped(materialList, hdPipelineAsset, shader, snippet, rest[0])
      ensures inputData.items == (kept + if removeInput then [] else [rest[0]]) + rest[1..]
    {
      assert inputData.items[i] == rest[0];
      var input := inputData.items[i];
      removeInput := ShouldRemove(hdPipelineAsset, shader, snippet, input);
      if removeInput {
        inputData.RemoveAt(i);
        assert inputData.items[..i] == kept;
        assert inputData.items[i..] == rest[1..];
        assert inputData.items == inputData.items[..i] + inputData.items[i..];
      } else {
        assert rest == [rest[0]] + rest[1..];
      }
    }

    /**
     * Filters `inputData` in place, as written: the totals are updated on every
     * iteration, the input total by the list's original length and the output
     * total by its current length.
     */
    method OnProcessShader(hdPipelineAsset: Option<HDRenderPipelineAsset>, shader: Shader, snippet: ShaderSnippetData,
                           inputData: ShaderCompilerDataList)
      modifies this`totalVariantsInputCount, this`totalVariantsOutputCount, inputData
      ensures StrippingDisabled(hdPipelineAsset) ==>
        && inputData.items == old(inputData.items)
        && totalVariantsInputCount == old(totalVariantsInputCount)
        && totalVariantsOutputCount == old(totalVariantsOutputCount)
      ensures !StrippingDisabled(hdPipelineAsset) ==>
        && inputData.items == Survivors(materialList, hdPipelineAsset.value, shader, snippet, old(inputData.items))
        && totalVariantsInputCount == old(totalVariantsInputCount) + |old(inputData.items)| * |old(inputData.items)|
        && totalVariantsOutputCount == old(totalVariantsOutputCount)
             + OutputTally(materialList, hdPipelineAsset.value, shader, snippet, old(inputData.items), |old(inputData.items)|)
    {
      if hdPipelineAsset.None? {
        return;
      }
      var asset := hdPipelineAsset.value;
      if !asset.allowShaderVariantStripping {
        return;
      }
      StripAndTallyEachIteration(asset, shader, snippet, inputData);
    }

    /**
     * The loop of `OnProcessShader`: filters `inputData` in place and, on every
     * iteration, adds the list's original length to the input total and its
     * current length to the output total.
     */
    method StripAndTallyEachIteration(asset: HDRenderPipelineAsset, shader: Shader, snippet: ShaderSnippetData,
                                      inputData: ShaderCompilerDataList)
      modifies this`totalVariantsInputCount, this`totalVariantsOutputCount, inputData
      ensures inputData.items == Survivors(materialList, asset, shader, snippet, old(inputData.items))
      ensures totalVariantsInputCount == old(totalVariantsInputCount) + |old(inputData.items)| * |old(inputData.items)|
      ensures totalVariantsOutputCount == old(totalVariantsOutputCount)
                + OutputTally(materialList, asset, shader, snippet, old(inputData.items), |old(inputData.items)|)
    {
      var preStrippingCount := |inputData.items|;
      ghost var original, inputBase, outputBase := inputData.items, totalVariantsInputCount, totalVariantsOutputCount;
      ghost var visited := 0;
      var i := 0;
      while i < |inputData.items|
        invariant 0 <= visited <= |original|
        invariant i == |inputData.items| - (|original| - visited)
        invariant inputData.items == Survivors(materialList, asset, shader, snippet, original[..visited]) + original[visited..]
        invariant totalVariantsInputCount == inputBase + RepeatedSum(preStrippingCount, visited)
        invariant totalVariantsOutputCount == outputBase + OutputTally(materialList, asset, shader, snippet, original, visited)
        decreases |original| - visited
      {
        ghost var kept := Survivors(materialList, asset, shader, snippet, original[..visited]);
        SurvivorsExtend(materialList, asset, shader, snippet, original, visited);
        assert original[visited..][0] == original[visited] && original[visited..][1..] == original[visited + 1..];
        var removeInput := VisitVariant(asset, shader, snippet, inputData, i, kept, original[visited..]);
        assert inputData.items == Survivors(materialList, asset, shader, snippet, original[..visited + 1])
                                  + original[visited + 1..];
        if removeInput {
          i := i - 1;
        }
        OutputTallyStep(materialList, asset, shader, snippet, original, visited);
        totalVariantsInputCount := totalVariantsInputCount + preStrippingCount;
        totalVariantsOutputCount := totalVariantsOutputCount + |inputData.items|;
        i := i + 1;
        visited := visited + 1;
      }
      assert original[..visited] == original;
      RepeatedSumIsProduct(preStrippingCount, visited);
    }

    /** Removes, in place and in one pass, every variant that some registered stripper drops. */
    method StripVariants(hdPipelineAsset: HDRenderPipelineAsset, shader: Shader, snippet: ShaderSnippetData,
                         inputData: ShaderCompilerDataList)
      modifies inputData
      ensures inputData.items == Survivors(materialList, hdPipelineAsset, shader, snippet, old(inputData.items))
    {
      ghost var original := inputData.items;
      ghost var visited := 0;
      var i := 0;
      while i < |inputData.items|
        invariant 0 <= visited <= |original|
        invariant i == |inputData.items| - (|original| - visited)
        invariant inputData.items == Survivors(materialList, hdPipelineAsset, shader, snippet, original[..visited])
                                     + original[visited..]
        decreases |original| - visited
      {
        ghost var kept := Survivors(materialList, hdPipelineAsset, shader, snippet, original[..visited]);
        SurvivorsExtend(materialList, hdPipelineAsset, shader, snippet, original, visited);
        assert original[visited..][0] == original[visited] && original[visited..][1..] == original[visited + 1..];
        var removeInput := VisitVariant(hdPipelineAsset, shader, snippet, inputData, i, kept, original[visited..]);
        assert inputData.items == Survivors(materialList, hdPipelineAsset, shader, snippet, original[..visited + 1])
                                  + original[visited + 1..];
        if removeInput {
          i := i - 1;
        }
        i := i + 1;
        visited := visited + 1;
      }
      assert original[..visited] == original;
    }

    /**
     * Filters `inputData` in place with the totals updated once per call: the
     * input total by the number of variants received, the output total by the
     * number kept.
     */
    method OnProcessShaderCountingOnce(hdPipelineAsset: Option<HDRenderPipelineAsset>, shader: Shader,
                                       snippet: ShaderSnippetData, inputData: ShaderCompilerDataList)
      modifies this`totalVariantsInputCount, this`totalVariantsOutputCount, inputData
      ensures StrippingDisabled(hdPipelineAsset) ==>
        && inputData.items == old(inputData.items)
        && totalVariantsInputCount == old(totalVariantsInputCount)
        && totalVariantsOutputCount == old(totalVariantsOutputCount)
      ensures !StrippingDisabled(hdPipelineAsset) ==>
        && inputData.items == Survivors(materialList, hdPipelineAsset.value, shader, snippet, old(inputData.items))
        && totalVariantsInputCount == old(totalVariantsInputCount) + |old(inputData.items)|
        && totalVariantsOutputCount == old(totalVariantsOutputCount) + |inputData.items|
    {
      if hdPipelineAsset.None? {
        return;
      }
      var asset := hdPipelineAsset.value;
      var preStrippingCount := |inputData.items|;
      if !asset.allowShaderVariantStripping {
        return;
      }
      StripVariants(asset, shader, snippet, inputData);
      totalVariantsInputCount := totalVariantsInputCount + preStrippingCount;
      totalVariantsOutputCount := totalVariantsOutputCount + |inputData.items|;
    }
  }

  // ---------------------------------------------------------------------------
  // The totals on a two-variant pass that nothing strips

  /** A pipeline asset that allows stripping, with every feature on. */
  function PermissiveAsset(): (r: HDRenderPipelineAsset)
    ensures r.allowShaderVariantStripping
  {
    HDRenderPipelineAsset(true,
      RenderPipelineSettings(true, true, true, true, true, GlobalDecalSettings(false),
                             HDShadowInitParameters(Medium, Medium)))
  }

  /**
   * Keyword constants for the common stripper, with illustrative names: one
   * shadow keyword per quality level and distinct feature keywords.
   */
  function SampleKeywords(): (r: CommonShaderPreprocessor.BaseShaderPreprocessor)
    ensures r.Valid()
  {
    CommonShaderPreprocessor.BaseShaderPreprocessor(
      map[Low := ShaderKeyword("PUNCTUAL_SHADOW_LOW"), Medium := ShaderKeyword("PUNCTUAL_SHADOW_MEDIUM"),
          High := ShaderKeyword("PUNCTUAL_SHADOW_HIGH")],
      map[Low := ShaderKeyword("DIRECTIONAL_SHADOW_LOW"), Medium := ShaderKeyword("DIRECTIONAL_SHADOW_MEDIUM"),
          High := ShaderKeyword("DIRECTIONAL_SHADOW_HIGH")],
      ShaderKeyword("SURFACE_TYPE_TRANSPARENT"), ShaderKeyword("TILE_LIGHTLOOP"), ShaderKeyword("DEBUG_DISPLAY"),
      ShaderKeyword("LOD_FADE_CROSSFADE"), ShaderKeyword("DECALS_OFF"), ShaderKeyword("DECALS_3RT"),
      ShaderKeyword("DECALS_4RT"), ShaderKeyword("LIGHT_LAYERS"))
  }

  /**
   * As written: two variants of the "Forward" pass that enable no keyword pass the
   * common stripper, so both are kept, yet each total grows by four.
   */
  method TotalsAsWrittenOnTwoKeptVariants() returns (kept: int, inputTotal: int, outputTotal: int)
    ensures kept == 2 && inputTotal == 4 && outputTotal == 4
  {
    var variant := ShaderCompilerData({});
    var strippers := [Common(SampleKeywords())];
    var list := new ShaderCompilerDataList([variant, variant]);
    var callback := new HDRPreprocessShaders(strippers);
    callback.OnProcessShader(Some(PermissiveAsset()), Shader("HDRP/Lit"), ShaderSnippetData("Forward"), list);
    assert !Stripped(strippers, PermissiveAsset(), Shader("HDRP/Lit"), ShaderSnippetData("Forward"), variant);
    OutputTallyWhenNothingStripped(strippers, PermissiveAsset(), Shader("HDRP/Lit"), ShaderSnippetData("Forward"),
                                   [variant, variant], 2);
    SurvivorsOfUnstripped(strippers, PermissiveAsset(), Shader("HDRP/Lit"), ShaderSnippetData("Forward"),
                          [variant, variant]);
    kept, inputTotal, outputTotal := |list.items|, callback.totalVariantsInputCount, callback.totalVariantsOutputCount;
  }

  /** Counting once: on the same pass, two variants received and two kept, and each total grows by two. */
  method TotalsCountedOnceOnTwoKeptVariants() returns (kept: int, inputTotal: int, outputTotal: int)
    ensures kept == 2 && inputTotal == 2 && outputTotal == 2
  {
    var variant := ShaderCompilerData({});
    var strippers := [Common(SampleKeywords())];
    var list := new ShaderCompilerDataList([variant, variant]);
    var callback := new HDRPreprocessShaders(strippers);
    callback.OnProcessShaderCountingOnce(Some(PermissiveAsset()), Shader("HDRP/Lit"), ShaderSnippetData("Forward"), list);
    assert !Stripped(strippers, PermissiveAsset(), Shader("HDRP/Lit"), ShaderSnippetData("Forward"), variant);
    SurvivorsOfUnstripped(strippers, PermissiveAsset(), Shader("HDRP/Lit"), ShaderSnippetData("Forward"),
                          [variant, variant]);
    kept, inputTotal, outputTotal := |list.items|, callback.totalVariantsInputCount, callback.totalVariantsOutputCount;
  }
}
