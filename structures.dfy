/** The structure snapshot (identity, parts and personalization in one
    value), the object that carries it as a property and is edited in
    place, and the comparisons of react/mixins/logic.js over it
    (`equalStructure`, `shouldReset`). */
module Structures {
  import opened Js
  import opened Customization

  /** A structure: `initialsExtra` is the object's `initials_extra` key. */
  datatype Structure = Structure(
    brand: Option<string>,
    model: Option<string>,
    version: Option<int>,
    parts: Option<Parts>,
    initials: Option<string>,
    engraving: Option<string>,
    initialsExtra: Option<InitialsExtra>)

  /** A structure object as passed in the `structure` property; the
      configuration update writes some of its keys in place. */
  class StructureObj {
    var brand: Option<string>
    var model: Option<string>
    var version: Option<int>
    var parts: Option<Parts>
    var initials: Option<string>
    var engraving: Option<string>
    var initialsExtra: Option<InitialsExtra>

    constructor(s: Structure)
      ensures Value() == s
    {
      brand, model, version := s.brand, s.model, s.version;
      parts, initials, engraving, initialsExtra := s.parts, s.initials, s.engraving, s.initialsExtra;
    }

    function Value(): Structure
      reads this
    {
      Structure(brand, model, version, parts, initials, engraving, initialsExtra)
    }
  }

  /** The value held by a possibly `null` structure reference. */
  function ValueOf(o: StructureObj?): Option<Structure>
    reads o
  {
    if o == null then None else Some(o.Value())
  }

  /** `equalStructure`: both absent is equal, one absent is not; otherwise
      identity, parts, initials, engraving and initials extra must agree. */
  function EqualStructure(first: Option<Structure>, second: Option<Structure>): bool {
    if first.None? && second.None? then true
    else if first.None? || second.None? then false
    else
      var a, b := first.value, second.value;
      && a.brand == b.brand
      && a.model == b.model
      && a.version == b.version
      && EqualParts(a.parts, b.parts)
      && a.initials == b.initials
      && a.engraving == b.engraving
      && EqualInitialsExtra(a.initialsExtra, b.initialsExtra)
  }

  /** The structure comparison is equality of the modelled structures. */
  lemma EqualStructureIsEquality(first: Option<Structure>, second: Option<Structure>)
    ensures EqualStructure(first, second) <==> first == second
  {
    if first.Some? && second.Some? {
      EqualPartsIsEquality(first.value.parts, second.value.parts);
      EqualInitialsExtraIsEquality(first.value.initialsExtra, second.value.initialsExtra);
    }
  }

  /** The fields `shouldReset` reads: `extra` is `initialsExtra` for the
      discrete configuration and `initials_extra` for a structure (the other
      key is `undefined` on each, which makes its clause false). */
  datatype ResetView = ResetView(
    brand: Option<string>,
    model: Option<string>,
    version: Option<int>,
    parts: Option<Parts>,
    initials: Option<string>,
    engraving: Option<string>,
    extra: Option<InitialsExtra>)

  function StructureView(s: Structure): ResetView {
    ResetView(s.brand, s.model, s.version, s.parts, s.initials, s.engraving, s.initialsExtra)
  }

  predicate IdentityChanged(value: ResetView, previous: ResetView) {
    value.brand != previous.brand || value.model != previous.model || value.version != previous.version
  }

  /** `shouldReset`: the identity changed and at least one of parts,
      initials, engraving or a present initials extra is the same. */
  predicate ShouldReset(value: ResetView, previous: ResetView) {
    && IdentityChanged(value, previous)
    && (|| EqualParts(value.parts, previous.parts)
        || value.initials == previous.initials
        || value.engraving == previous.engraving
        || (value.extra.Some? && previous.extra.Some? && EqualInitialsExtra(value.extra, previous.extra)))
  }

  /** A reset is asked for exactly when the identity changed while some of
      the customization was carried over unchanged; the carried-over parts
      may also both be `null`. */
  lemma ShouldResetCarriesOver(value: ResetView, previous: ResetView)
    ensures ShouldReset(value, previous) <==>
      && IdentityChanged(value, previous)
      && (|| value.parts == previous.parts
          || value.initials == previous.initials
          || value.engraving == previous.engraving
          || (value.extra.Some? && value.extra == previous.extra))
  {
    EqualPartsIsEquality(value.parts, previous.parts);
    EqualInitialsExtraIsEquality(value.extra, previous.extra);
  }

  /** A view never asks for a reset against itself. */
  lemma NoResetWithoutIdentityChange(value: ResetView, previous: ResetView)
    requires value.brand == previous.brand && value.model == previous.model && value.version == previous.version
    ensures !ShouldReset(value, previous)
  {
  }
}
