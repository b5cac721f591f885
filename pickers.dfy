/** The part, material and color pickers
    (react/components/organisms/ripe-pickers/ripe-pickers.js): the filtering
    of the engine's availability tree, the label normalisation, and the
    three-field selection that is committed with `setPart`. */
module Pickers {
  import opened Js
  import opened Text
  import opened Customization

  /** The engine's `choices` tree; each level lists its entries in the
      iteration order of `Object.entries`. */
  datatype ColorChoice = ColorChoice(name: string, available: bool)
  datatype MaterialChoice = MaterialChoice(name: string, available: bool, colors: seq<ColorChoice>)
  datatype PartChoice = PartChoice(name: string, available: bool, materials: seq<MaterialChoice>)

  /** Part name to material name to the names of the available colors. */
  type Options = map<string, map<string, seq<string>>>

  /** The names of the available colors, in order. */
  function AvailableColors(colors: seq<ColorChoice>): seq<string>
    decreases |colors|
  {
    if colors == [] then []
    else
      var rest := AvailableColors(colors[..|colors| - 1]);
      var last := colors[|colors| - 1];
      if last.available then rest + [last.name] else rest
  }

  /** The available materials that have an available color, with those colors. */
  function KeptMaterials(materials: seq<MaterialChoice>): map<string, seq<string>>
    decreases |materials|
  {
    if materials == [] then map[]
    else
      var rest := KeptMaterials(materials[..|materials| - 1]);
      var last := materials[|materials| - 1];
      var colors := AvailableColors(last.colors);
      if last.available && |colors| > 0 then rest[last.name := colors] else rest
  }

  /** The available parts that keep some material, with those materials. */
  function Filtered(parts: seq<PartChoice>): Options
    decreases |parts|
  {
    if parts == [] then map[]
    else
      var rest := Filtered(parts[..|parts| - 1]);
      var last := parts[|parts| - 1];
      var materials := KeptMaterials(last.materials);
      if last.available && |materials| > 0 then rest[last.name := materials] else rest
  }

  /** `_filteredOptions`: the nested walk over parts, materials and colors. */
  method FilteredOptions(choices: seq<PartChoice>) returns (r: Options)
    ensures r == Filtered(choices)
  {
    r := map[];
    var i := 0;
    while i < |choices|
      invariant 0 <= i <= |choices|
      invariant r == Filtered(choices[..i])
    {
      var part := choices[i];
      if part.available {
        var materials := map[];
        var j := 0;
        while j < |part.materials|
          invariant 0 <= j <= |part.materials|
          invariant materials == KeptMaterials(part.materials[..j])
        {
          var material := part.materials[j];
          if material.available {
            var colors := [];
            var k := 0;
            while k < |material.colors|
              invariant 0 <= k <= |material.colors|
              invariant colors == AvailableColors(material.colors[..k])
            {
              var color := material.colors[k];
              if color.available {
                colors := colors + [color.name];
              }
              assert material.colors[..k + 1][..k] == material.colors[..k];
              k := k + 1;
            }
            assert material.colors[..k] == material.colors;
            if |colors| != 0 {
              materials := materials[material.name := colors];
            }
          }
          assert part.materials[..j + 1][..j] == part.materials[..j];
          j := j + 1;
        }
        assert part.materials[..j] == part.materials;
        if |materials| != 0 {
          r := r[part.name := materials];
        }
      }
      assert choices[..i + 1][..i] == choices[..i];
      i := i + 1;
    }
    assert choices[..i] == choices;
  }

  /** Filtering the colors keeps their order: a concatenation filters piecewise. */
  lemma {:induction false} AvailableColorsAppend(first: seq<ColorChoice>, second: seq<ColorChoice>)
    ensures AvailableColors(first + second) == AvailableColors(first) + AvailableColors(second)
    decreases |second|
  {
    if second == [] {
      assert first + second == first;
    } else {
      var whole := first + second;
      assert whole[..|whole| - 1] == first + second[..|second| - 1];
      assert whole[|whole| - 1] == second[|second| - 1];
      AvailableColorsAppend(first, second[..|second| - 1]);
    }
  }

  /** The color list holds exactly the names of the available colors. */
  lemma {:induction false} AvailableColorsMembers(colors: seq<ColorChoice>)
    ensures |AvailableColors(colors)| <= |colors|
    ensures forall x :: x in AvailableColors(colors) <==>
      exists k :: 0 <= k < |colors| && colors[k].available && colors[k].name == x
    decreases |colors|
  {
    if colors != [] {
      var init := colors[..|colors| - 1];
      AvailableColorsMembers(init);
      forall x ensures x in AvailableColors(colors) <==>
        exists k :: 0 <= k < |colors| && colors[k].available && colors[k].name == x
      {
        if x in AvailableColors(init) {
          var k :| 0 <= k < |init| && init[k].available && init[k].name == x;
          assert colors[k] == init[k];
        }
        if exists k :: 0 <= k < |colors| && colors[k].available && colors[k].name == x {
          var k :| 0 <= k < |colors| && colors[k].available && colors[k].name == x;
          if k < |init| {
            assert init[k] == colors[k];
          }
        }
      }
    }
  }

  /** A material is kept exactly when some entry of that name is available
      and has an available color. */
  lemma {:induction false} KeptMaterialsMembers(materials: seq<MaterialChoice>)
    ensures forall m :: m in KeptMaterials(materials) <==>
      exists j :: 0 <= j < |materials| && materials[j].name == m && materials[j].available
                  && |AvailableColors(materials[j].colors)| > 0
    decreases |materials|
  {
    if materials != [] {
      var init := materials[..|materials| - 1];
      KeptMaterialsMembers(init);
      forall m ensures m in KeptMaterials(materials) <==>
        exists j :: 0 <= j < |materials| && materials[j].name == m && materials[j].available
                    && |AvailableColors(materials[j].colors)| > 0
      {
        if m in KeptMaterials(init) {
          var j :| 0 <= j < |init| && init[j].name == m && init[j].available
                   && |AvailableColors(init[j].colors)| > 0;
          assert materials[j] == init[j];
        }
        if exists j :: 0 <= j < |materials| && materials[j].name == m && materials[j].available
                       && |AvailableColors(materials[j].colors)| > 0 {
          var j :| 0 <= j < |materials| && materials[j].name == m && materials[j].available
                   && |AvailableColors(materials[j].colors)| > 0;
          if j < |init| {
            assert init[j] == materials[j];
          }
        }
      }
    }
  }

  /** The colors of a kept material are the available colors of a kept
      entry of that name, so never empty. */
  lemma {:induction false} KeptMaterialsValues(materials: seq<MaterialChoice>)
    ensures forall m :: m in KeptMaterials(materials) ==>
      exists j :: 0 <= j < |materials| && materials[j].name == m && materials[j].available
                  && KeptMaterials(materials)[m] == AvailableColors(materials[j].colors)
                  && |KeptMaterials(materials)[m]| > 0
    decreases |materials|
  {
    if materials != [] {
      var init := materials[..|materials| - 1];
      var last := materials[|materials| - 1];
      KeptMaterialsValues(init);
      forall m | m in KeptMaterials(materials) ensures
        exists j :: 0 <= j < |materials| && materials[j].name == m && materials[j].available
                    && KeptMaterials(materials)[m] == AvailableColors(materials[j].colors)
                    && |KeptMaterials(materials)[m]| > 0
      {
        if last.available && |AvailableColors(last.colors)| > 0 && m == last.name {
          assert materials[|materials| - 1] == last;
        } else {
          var j :| 0 <= j < |init| && init[j].name == m && init[j].available
                   && KeptMaterials(init)[m] == AvailableColors(init[j].colors)
                   && |KeptMaterials(init)[m]| > 0;
          assert materials[j] == init[j];
        }
      }
    }
  }

  /** A part is kept exactly when some entry of that name is available and
      keeps a material. */
  lemma {:induction false} FilteredMembers(parts: seq<PartChoice>)
    ensures forall p :: p in Filtered(parts) <==>
      exists i :: 0 <= i < |parts| && parts[i].name == p && parts[i].available
                  && |KeptMaterials(parts[i].materials)| > 0
    decreases |parts|
  {
    if parts != [] {
      var init := parts[..|parts| - 1];
      FilteredMembers(init);
      forall p ensures p in Filtered(parts) <==>
        exists i :: 0 <= i < |parts| && parts[i].name == p && parts[i].available
                    && |KeptMaterials(parts[i].materials)| > 0
      {
        if p in Filtered(init) {
          var i :| 0 <= i < |init| && init[i].name == p && init[i].available
                   && |KeptMaterials(init[i].materials)| > 0;
          assert parts[i] == init[i];
        }
        if exists i :: 0 <= i < |parts| && parts[i].name == p && parts[i].available
                       && |KeptMaterials(parts[i].materials)| > 0 {
          var i :| 0 <= i < |parts| && parts[i].name == p && parts[i].available
                   && |KeptMaterials(parts[i].materials)| > 0;
          if i < |init| {
            assert init[i] == parts[i];
          }
        }
      }
    }
  }

  /** The materials of a kept part are those of a kept entry of that name,
      so never empty. */
  lemma {:induction false} FilteredValues(parts: seq<PartChoice>)
    ensures forall p :: p in Filtered(parts) ==>
      exists i :: 0 <= i < |parts| && parts[i].name == p && parts[i].available
                  && Filtered(parts)[p] == KeptMaterials(parts[i].materials)
                  && |Filtered(parts)[p]| > 0
    decreases |parts|
  {
    if parts != [] {
      var init := parts[..|parts| - 1];
      var last := parts[|parts| - 1];
      FilteredValues(init);
      forall p | p in Filtered(parts) ensures
        exists i :: 0 <= i < |parts| && parts[i].name == p && parts[i].available
                    && Filtered(parts)[p] == KeptMaterials(parts[i].materials)
                    && |Filtered(parts)[p]| > 0
      {
        if last.available && |KeptMaterials(last.materials)| > 0 && p == last.name {
          assert parts[|parts| - 1] == last;
        } else {
          var i :| 0 <= i < |init| && init[i].name == p && init[i].available
                   && Filtered(init)[p] == KeptMaterials(init[i].materials)
                   && |Filtered(init)[p]| > 0;
          assert parts[i] == init[i];
        }
      }
    }
  }

  /** Everything the filter keeps is available in the tree, and no kept part
      or material is left without a choice below it. */
  lemma FilteredKeepsOnlyAvailable(parts: seq<PartChoice>, p: string, m: string, c: string)
    requires p in Filtered(parts) && m in Filtered(parts)[p] && c in Filtered(parts)[p][m]
    ensures exists i, j, k ::
      && 0 <= i < |parts| && parts[i].name == p && parts[i].available
      && 0 <= j < |parts[i].materials| && parts[i].materials[j].name == m && parts[i].materials[j].available
      && 0 <= k < |parts[i].materials[j].colors| && parts[i].materials[j].colors[k].name == c
      && parts[i].materials[j].colors[k].available
    ensures |Filtered(parts)[p]| > 0 && |Filtered(parts)[p][m]| > 0
  {
    FilteredValues(parts);
    var i :| 0 <= i < |parts| && parts[i].name == p && parts[i].available
             && Filtered(parts)[p] == KeptMaterials(parts[i].materials)
             && |Filtered(parts)[p]| > 0;
    var materials := parts[i].materials;
    KeptMaterialsValues(materials);
    var j :| 0 <= j < |materials| && materials[j].name == m && materials[j].available
             && KeptMaterials(materials)[m] == AvailableColors(materials[j].colors)
             && |KeptMaterials(materials)[m]| > 0;
    AvailableColorsMembers(materials[j].colors);
    var k :| 0 <= k < |materials[j].colors| && materials[j].colors[k].available
             && materials[j].colors[k].name == c;
  }

  /** `v[0].toUpperCase() + v.slice(1)`. */
  function Capitalize(v: string): (r: string)
    requires v != ""
    ensures |r| == |v| && r[0] == UpperChar(v[0]) && !IsLower(r[0]) && r[1..] == v[1..]
  {
    [UpperChar(v[0])] + v[1..]
  }

  function CapitalizeAll(segments: seq<string>): (r: seq<string>)
    requires forall k :: 0 <= k < |segments| ==> segments[k] != ""
    ensures |r| == |segments|
    ensures forall k :: 0 <= k < |r| ==>
      && |r[k]| == |segments[k]|
      && r[k][0] == UpperChar(segments[k][0]) && !IsLower(r[k][0])
      && r[k][1..] == segments[k][1..]
  {
    seq(|segments|, k requires 0 <= k < |segments| => Capitalize(segments[k]))
  }

  /** `_normalize`; `None` is the `TypeError` of an empty segment (`v[0]` is
      `undefined`): a leading, trailing or doubled `_`, or the empty string. */
  function Normalize(value: string): Option<string> {
    var segments := Split(value, '_');
    if forall k :: 0 <= k < |segments| ==> segments[k] != ""
    then Some(Join(CapitalizeAll(segments), ' '))
    else None
  }

  /** The character the label has at position `i`: a space for each `_`,
      the upper case of the first letter of each segment, else unchanged. */
  function NormalizedChar(value: string, i: nat): char
    requires i < |value|
  {
    if value[i] == '_' then ' '
    else if i == 0 || value[i - 1] == '_' then UpperChar(value[i])
    else value[i]
  }

  /** The label has the length of the value and, position by position, a
      space for each `_` and an upper-cased first letter for each segment. */
  lemma {:induction false} NormalizeCharacters(value: string)
    requires Normalize(value).Some?
    ensures |Normalize(value).value| == |value|
    ensures forall i :: 0 <= i < |value| ==> Normalize(value).value[i] == NormalizedChar(value, i)
    decreases |value|
  {
    var r := Normalize(value).value;
    if '_' !in value {
      SplitWithoutSeparator(value, '_');
      assert CapitalizeAll([value]) == [Capitalize(value)];
      assert r == Capitalize(value);
    } else {
      var j := FirstIndex(value, '_');
      var a, b := value[..j], value[j + 1..];
      assert value == a + ['_'] + b;
      NormalizeFirstSegment(a, b);
      NormalizeCharacters(b);
      JoinedCharacters(a, b, Normalize(b).value);
    }
  }

  /** The label of `a_b`, for `a` free of `_`, is `a` capitalized, a space
      and the label of `b`. */
  lemma NormalizeFirstSegment(a: string, b: string)
    requires '_' !in a && Normalize(a + ['_'] + b).Some?
    ensures a != "" && Normalize(b).Some?
    ensures Normalize(a + ['_'] + b).value == Capitalize(a) + [' '] + Normalize(b).value
  {
    SplitAfterSeparator(a, '_', b);
    var segments := Split(a + ['_'] + b, '_');
    var rest := Split(b, '_');
    assert segments == [a] + rest;
    assert a == segments[0];
    assert forall k :: 0 <= k < |rest| ==> rest[k] == segments[k + 1];
    CapitalizeAllCons(a, rest);
    assert ([Capitalize(a)] + CapitalizeAll(rest))[1..] == CapitalizeAll(rest);
  }

  /** Capitalizing a leading segment and the rest separately. */
  lemma CapitalizeAllCons(a: string, rest: seq<string>)
    requires a != "" && forall k :: 0 <= k < |rest| ==> rest[k] != ""
    ensures forall k :: 0 <= k < |[a] + rest| ==> ([a] + rest)[k] != ""
    ensures CapitalizeAll([a] + rest) == [Capitalize(a)] + CapitalizeAll(rest)
  {
    var segments := [a] + rest;
    var left, right := CapitalizeAll(segments), [Capitalize(a)] + CapitalizeAll(rest);
    forall k | 0 <= k < |segments| ensures left[k] == right[k] {
      if k > 0 {
        assert segments[k] == rest[k - 1];
      }
    }
    assert left == right;
  }

  /** The characters of `a_b` from those of `b`, when `a` has no `_`. */
  lemma JoinedCharacters(a: string, b: string, rb: string)
    requires a != "" && '_' !in a
    requires |rb| == |b| && forall i :: 0 <= i < |b| ==> rb[i] == NormalizedChar(b, i)
    ensures var value, r := a + ['_'] + b, Capitalize(a) + [' '] + rb;
      |r| == |value| && forall i :: 0 <= i < |value| ==> r[i] == NormalizedChar(value, i)
  {
    var value, r := a + ['_'] + b, Capitalize(a) + [' '] + rb;
    var j := |a|;
    forall i | 0 <= i < |value| ensures r[i] == NormalizedChar(value, i) {
      if i < j {
        assert value[i] == a[i] && a[i] != '_';
        if i > 0 {
          assert value[i - 1] == a[i - 1];
        }
      } else if i > j {
        assert value[i] == b[i - j - 1];
        assert r[i] == rb[i - j - 1];
        if i - j - 1 > 0 {
          assert value[i - 1] == b[i - j - 2];
        }
      }
    }
  }

  /** The label exists exactly when no segment between `_` is empty, so
      never for an empty value or one that starts or ends with `_`. */
  lemma NormalizeDefined(value: string)
    ensures Normalize(value).Some? <==> forall k :: 0 <= k < |Split(value, '_')| ==> Split(value, '_')[k] != ""
    ensures value == "" || value[0] == '_' || value[|value| - 1] == '_' ==> Normalize(value).None?
  {
    var segments := Split(value, '_');
    if value == "" {
      assert segments[0] == "";
    } else if value[0] == '_' {
      assert value == [] + ['_'] + value[1..];
      SplitAfterSeparator([], '_', value[1..]);
      assert segments[0] == "";
    } else if value[|value| - 1] == '_' {
      LastSegmentAfterSeparator(value);
    }
  }

  /** A value ending in `_` splits into at least two segments, the last empty. */
  lemma {:induction false} LastSegmentAfterSeparator(value: string)
    requires value != [] && value[|value| - 1] == '_'
    ensures |Split(value, '_')| >= 2
    ensures Split(value, '_')[|Split(value, '_')| - 1] == ""
    decreases |value|
  {
    var rest := Split(value[1..], '_');
    if |value| == 1 {
      assert value[1..] == [];
      assert rest == [""];
    } else {
      assert value[1..][|value[1..]| - 1] == value[|value| - 1];
      LastSegmentAfterSeparator(value[1..]);
    }
  }

  /** What the pickers call and notify. */
  datatype PickerEffect =
    | SetPart(part: string, material: string, color: string)
    | OnUpdateHighlightedPart(highlighted: string)
    | OnUpdateParts(parts: Parts)
    | OnLoading
    | OnLoaded

  class Pickers {
    var selectedPart: Option<string>
    var selectedMaterial: Option<string>
    var selectedColor: Option<string>
    var options: Options
    var loading: bool
    /** Engine calls and outward callbacks, oldest first. */
    var trace: seq<PickerEffect>

    /** Only complete selections are ever committed. */
    predicate Valid()
      reads this
    {
      forall k :: 0 <= k < |trace| && trace[k].SetPart? ==>
        trace[k].part != "" && trace[k].material != "" && trace[k].color != ""
    }

    /** `_isConfigurationIncomplete`: one of the three selections is falsy. */
    predicate IsConfigurationIncomplete()
      reads this
    {
      !TruthyString(selectedPart) || !TruthyString(selectedMaterial) || !TruthyString(selectedColor)
    }

    /** A selection is complete exactly when a part, a material and a color
        are all chosen and none of them is the empty string. */
    lemma CompleteMeansAllChosen()
      ensures !IsConfigurationIncomplete() <==>
        && selectedPart.Some? && selectedPart.value != ""
        && selectedMaterial.Some? && selectedMaterial.value != ""
        && selectedColor.Some? && selectedColor.value != ""
    {
    }

    constructor()
      ensures Valid()
      ensures selectedPart.None? && selectedMaterial.None? && selectedColor.None?
      ensures options == map[] && loading && trace == []
    {
      selectedPart, selectedMaterial, selectedColor := None, None, None;
      options, loading, trace := map[], true, [];
    }

    /** `componentDidMount` with `_setupRipe`: reports loading, then, with the
      engine ready, stores the filtered options and reports loaded. */
    method Mount(choices: seq<PartChoice>)
      requires Valid()
      modifies this
      ensures Valid()
      ensures !loading && options == Filtered(choices)
      ensures selectedPart == old(selectedPart) && selectedMaterial == old(selectedMaterial)
      ensures selectedColor == old(selectedColor)
      ensures trace == old(trace) + [OnLoading, OnLoaded]
    {
      trace := trace + [OnLoading];
      loading := false;
      options := FilteredOptions(choices);
      trace := trace + [OnLoaded];
    }

    /** The `pre_config` handler: loading again, with every selection cleared. */
    method OnPreConfig()
      requires Valid()
      modifies this
      ensures Valid()
      ensures loading && selectedPart.None? && selectedMaterial.None? && selectedColor.None?
      ensures options == old(options) && trace == old(trace) + [OnLoading]
    {
      loading := true;
      selectedPart, selectedMaterial, selectedColor := None, None, None;
      trace := trace + [OnLoading];
    }

    /** The `post_config` handler: loaded, with the options of the new model. */
    method OnPostConfig(choices: seq<PartChoice>)
      requires Valid()
      modifies this
      ensures Valid()
      ensures !loading && options == Filtered(choices)
      ensures selectedPart == old(selectedPart) && selectedMaterial == old(selectedMaterial)
      ensures selectedColor == old(selectedColor)
      ensures trace == old(trace) + [OnLoaded]
    {
      loading := false;
      options := FilteredOptions(choices);
      trace := trace + [OnLoaded];
    }

    /** `_onSelectPartChange`: a new part clears the material and the color. */
    method OnSelectPartChange(value: string)
      requires Valid()
      modifies this
      ensures Valid()
      ensures selectedPart == Some(value) && selectedMaterial.None? && selectedColor.None?
      ensures IsConfigurationIncomplete()
      ensures options == old(options) && loading == old(loading)
      ensures trace == old(trace) + [OnUpdateHighlightedPart(value)]
    {
      selectedPart, selectedMaterial, selectedColor := Some(value), None, None;
      trace := trace + [OnUpdateHighlightedPart(value)];
    }

    /** `_onSelectMaterialChange`: only the material changes. */
    method OnSelectMaterialChange(value: string)
      requires Valid()
      modifies this
      ensures Valid()
      ensures selectedMaterial == Some(value)
      ensures selectedPart == old(selectedPart) && selectedColor == old(selectedColor)
      ensures options == old(options) && loading == old(loading) && trace == old(trace)
    {
      selectedMaterial := Some(value);
    }

    /** `_onSelectColorChange`: only the color changes. */
    method OnSelectColorChange(value: string)
      requires Valid()
      modifies this
      ensures Valid()
      ensures selectedColor == Some(value)
      ensures selectedPart == old(selectedPart) && selectedMaterial == old(selectedMaterial)
      ensures options == old(options) && loading == old(loading) && trace == old(trace)
    {
      selectedColor := Some(value);
    }

    /** `_onConfirmCustomization`: with a complete selection, one `setPart`
      with the triple; once the engine accepted it, the engine's parts are
      reported and the selection is cleared. `accepted` is whether the
      engine's promise resolves and `partsAfter` its parts afterwards. */
    method OnConfirmCustomization(accepted: bool, partsAfter: Parts)
      requires Valid()
      modifies this
      ensures Valid()
      ensures options == old(options) && loading == old(loading)
      ensures old(IsConfigurationIncomplete()) ==>
        && selectedPart == old(selectedPart) && selectedMaterial == old(selectedMaterial)
        && selectedColor == old(selectedColor) && trace == old(trace)
      ensures !old(IsConfigurationIncomplete()) ==>
        && trace == old(trace)
           + [SetPart(old(selectedPart).value, old(selectedMaterial).value, old(selectedColor).value)]
           + (if accepted then [OnUpdateParts(partsAfter)] else [])
        && (accepted ==> selectedPart.None? && selectedMaterial.None? && selectedColor.None?)
        && (!accepted ==> selectedPart == old(selectedPart) && selectedMaterial == old(selectedMaterial)
                          && selectedColor == old(selectedColor))
    {
      if IsConfigurationIncomplete() {
        return;
      }
      trace := trace + [SetPart(selectedPart.value, selectedMaterial.value, selectedColor.value)];
      if !accepted {
        return;
      }
      trace := trace + [OnUpdateParts(partsAfter)];
      selectedPart, selectedMaterial, selectedColor := None, None, None;
    }
  }
}
