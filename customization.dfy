/** Parts maps and initials-extra maps, and the symmetric subset comparisons
    the logic mixin uses to decide whether two of them are the same
    (react/mixins/logic.js, `equalParts`, `equalInitialsExtra`,
    `_subsetCompareParts`, `_subsetCompareInitials`). */
module Customization {
  import opened Js

  /** The customization of one part; only the two compared fields are kept. */
  datatype Part = Part(material: string, color: string)

  /** Part name to its material and color. */
  type Parts = map<string, Part>

  /** The personalization of one initials group. */
  datatype Group = Group(initials: Option<string>, engraving: Option<string>)

  /** Group name to its initials and engraving. */
  type InitialsExtra = map<string, Group>

  /** Every part of `base` is in `reference` with the same material and color. */
  predicate SubsetParts(base: Parts, reference: Parts) {
    forall name :: name in base ==>
      name in reference
      && base[name].material == reference[name].material
      && base[name].color == reference[name].color
  }

  /** Every group of `base` is in `reference` with the same initials and engraving. */
  predicate SubsetInitials(base: InitialsExtra, reference: InitialsExtra) {
    forall name :: name in base ==>
      name in reference
      && base[name].initials == reference[name].initials
      && base[name].engraving == reference[name].engraving
  }

  /** `_subsetCompareParts`: walks the names of `base` in any order and
      stops at the first one missing from `reference` or different there. */
  method SubsetCompareParts(base: Parts, reference: Parts) returns (r: bool)
    ensures r <==> SubsetParts(base, reference)
    ensures !r <==> exists name :: name in base && (name !in reference || base[name] != reference[name])
  {
    var names := base.Keys;
    while names != {}
      invariant names <= base.Keys
      invariant forall name :: name in base && name !in names ==>
        name in reference && base[name] == reference[name]
      decreases names
    {
      var name :| name in names;
      if name !in reference {
        return false;
      }
      var partB := base[name];
      var partR := reference[name];
      if partB.material != partR.material || partB.color != partR.color {
        return false;
      }
      names := names - {name};
    }
    return true;
  }

  /** `_subsetCompareInitials`, the same walk over initials groups. */
  method SubsetCompareInitials(base: InitialsExtra, reference: InitialsExtra) returns (r: bool)
    ensures r <==> SubsetInitials(base, reference)
    ensures !r <==> exists name :: name in base && (name !in reference || base[name] != reference[name])
  {
    var names := base.Keys;
    while names != {}
      invariant names <= base.Keys
      invariant forall name :: name in base && name !in names ==>
        name in reference && base[name] == reference[name]
      decreases names
    {
      var name :| name in names;
      if name !in reference {
        return false;
      }
      var groupB := base[name];
      var groupR := reference[name];
      if groupB.initials != groupR.initials || groupB.engraving != groupR.engraving {
        return false;
      }
      names := names - {name};
    }
    return true;
  }

  /** `equalParts`: two `null` maps are equal, one `null` map is not, and
      two present maps are compared by subset in both directions. */
  function EqualParts(first: Option<Parts>, second: Option<Parts>): bool {
    if first.None? && second.None? then true
    else if first.None? != second.None? then false
    else SubsetParts(first.value, second.value) && SubsetParts(second.value, first.value)
  }

  /** `equalInitialsExtra`, with the same absent/present rule. */
  function EqualInitialsExtra(first: Option<InitialsExtra>, second: Option<InitialsExtra>): bool {
    if first.None? && second.None? then true
    else if first.None? != second.None? then false
    else SubsetInitials(first.value, second.value) && SubsetInitials(second.value, first.value)
  }

  /** The two-way subset comparison is exactly equality of the maps
      (and of their presence). */
  lemma EqualPartsIsEquality(first: Option<Parts>, second: Option<Parts>)
    ensures EqualParts(first, second) <==> first == second
  {
    if first.Some? && second.Some? && EqualParts(first, second) {
      var a, b := first.value, second.value;
      assert a.Keys == b.Keys;
      forall name | name in a ensures a[name] == b[name] {
        assert a[name].material == b[name].material && a[name].color == b[name].color;
      }
      assert a == b;
    }
  }

  lemma EqualInitialsExtraIsEquality(first: Option<InitialsExtra>, second: Option<InitialsExtra>)
    ensures EqualInitialsExtra(first, second) <==> first == second
  {
    if first.Some? && second.Some? && EqualInitialsExtra(first, second) {
      var a, b := first.value, second.value;
      assert a.Keys == b.Keys;
      forall name | name in a ensures a[name] == b[name] {
        assert a[name].initials == b[name].initials && a[name].engraving == b[name].engraving;
      }
      assert a == b;
    }
  }

  lemma EqualPartsSymmetricReflexive(first: Option<Parts>, second: Option<Parts>)
    ensures EqualParts(first, first)
    ensures EqualParts(first, second) == EqualParts(second, first)
  {
  }

  /** Equal parts maps have the same part names: a part missing from one side
      makes them unequal even when every shared part matches. */
  lemma EqualPartsSameNames(first: Parts, second: Parts)
    ensures EqualParts(Some(first), Some(second)) ==> first.Keys == second.Keys
    ensures EqualParts(Some(first), Some(second)) ==
      (first.Keys == second.Keys && forall name :: name in first ==> first[name] == second[name])
  {
  }

  lemma EqualInitialsExtraSymmetricReflexive(first: Option<InitialsExtra>, second: Option<InitialsExtra>)
    ensures EqualInitialsExtra(first, first)
    ensures EqualInitialsExtra(first, second) == EqualInitialsExtra(second, first)
  {
  }

  lemma EqualInitialsExtraSameNames(first: InitialsExtra, second: InitialsExtra)
    ensures EqualInitialsExtra(Some(first), Some(second)) ==
      (first.Keys == second.Keys && forall name :: name in first ==> first[name] == second[name])
  {
  }
}
