/**
 * The value side of a score order (libmscore/scoreorder.cpp): score groups,
 * instrument templates as the template lookup returns them, and the queries
 * that pick a group for an instrument, stated as functions over the list of
 * groups. The class in score_order.dfy runs the source's loops and is proved
 * against these functions.
 */
module ScoreGroups {
  import opened Wrappers

  const SoloistsId: string := "<soloists>"
  const UnsortedId: string := "<unsorted>"

  /**
   * The contents of a QString that may be null (None). Qt compares a null
   * string equal to an empty one, and `isEmpty()` holds of both.
   */
  function Text(s: Option<string>): string
  {
    s.GetOr("")
  }

  /**
   * A group of the order. `unsorted` is null (None) for a family group, empty
   * for the generic `<unsorted/>` group and the group id of an
   * `<unsorted group="..."/>` group.
   */
  datatype ScoreGroup = ScoreGroup(
    family: string,
    section: string,
    unsorted: Option<string>,
    bracket: bool,
    showSystemMarkings: bool,
    barLineSpan: bool,
    thinBracket: bool)

  /** A default-constructed ScoreGroup. */
  const DefaultGroup: ScoreGroup := ScoreGroup("", "", None, false, false, true, true)

  /** The group that `readSoloists` appends. */
  function SoloistsGroup(section: string): ScoreGroup
  {
    DefaultGroup.(family := SoloistsId, section := section)
  }

  /** `newUnsortedGroup(group, section)`. */
  function NewUnsortedGroup(group: string, section: string): (g: ScoreGroup)
    ensures g.family == UnsortedId && g.unsorted == Some(group) && g.section == section
    ensures !g.bracket && !g.showSystemMarkings && !g.barLineSpan && !g.thinBracket
  {
    ScoreGroup(UnsortedId, section, Some(group), false, false, false, false)
  }

  /** A family entry of the instrument map, overriding a template's family. */
  datatype InstrumentOverwrite = InstrumentOverwrite(id: string, name: string)

  datatype InstrumentFamily = InstrumentFamily(id: string, name: string)

  datatype InstrumentTemplate = InstrumentTemplate(
    id: string,
    family: Option<InstrumentFamily>,
    groupId: string,
    sequenceOrder: int)

  /** `InstrumentTemplate::familyId()`: the family's id, or the empty string. */
  function FamilyId(t: InstrumentTemplate): string
  {
    if t.family.Some? then t.family.value.id else ""
  }

  /** What the template lookup answers for an instrument id. */
  datatype InstrumentIndex = InstrumentIndex(instrTemplate: Option<InstrumentTemplate>, templateCount: int)

  /** Looks up the instrument template for an instrument id. */
  type TemplateLookup = string -> InstrumentIndex

  // ---------------------------------------------------------------------------
  // Searching the list of groups

  /** The conditions the queries test a group against. */
  datatype GroupTest =
    | FamilyIs(family: string)             // sg.family == family
    | Keyed(family: string, key: string)   // sg.family == family && sg.unsorted == key

  predicate Holds(t: GroupTest, g: ScoreGroup)
  {
    match t
    case FamilyIs(f) => g.family == f
    case Keyed(f, k) => g.family == f && Text(g.unsorted) == k
  }

  /** The first index of a group passing `t`. */
  function FirstIndex(gs: seq<ScoreGroup>, t: GroupTest): (r: Option<nat>)
    ensures r.Some? ==> r.value < |gs| && Holds(t, gs[r.value])
    ensures r.Some? ==> forall j :: 0 <= j < r.value ==> !Holds(t, gs[j])
    ensures r.None? ==> forall j :: 0 <= j < |gs| ==> !Holds(t, gs[j])
  {
    if gs == [] then None
    else
      var r := FirstIndex(gs[..|gs| - 1], t);
      if r.Some? then r
      else if Holds(t, gs[|gs| - 1]) then Some(|gs| - 1)
      else None
  }

  /** The last index of a group passing `t`. */
  function LastIndex(gs: seq<ScoreGroup>, t: GroupTest): (r: Option<nat>)
    ensures r.Some? ==> r.value < |gs| && Holds(t, gs[r.value])
    ensures r.Some? ==> forall j :: r.value < j < |gs| ==> !Holds(t, gs[j])
    ensures r.None? ==> forall j :: 0 <= j < |gs| ==> !Holds(t, gs[j])
  {
    if gs == [] then None
    else if Holds(t, gs[|gs| - 1]) then Some(|gs| - 1)
    else LastIndex(gs[..|gs| - 1], t)
  }

  /** The first index is the one index that passes and has no passing predecessor. */
  lemma FirstIndexIs(gs: seq<ScoreGroup>, t: GroupTest, i: nat)
    requires i < |gs| && Holds(t, gs[i])
    requires forall j :: 0 <= j < i ==> !Holds(t, gs[j])
    ensures FirstIndex(gs, t) == Some(i)
  {
  }

  /** Extending the list by one group, as the loops of the source do. */
  lemma FirstIndexSnoc(gs: seq<ScoreGroup>, g: ScoreGroup, t: GroupTest)
    ensures FirstIndex(gs + [g], t) ==
            if FirstIndex(gs, t).Some? then FirstIndex(gs, t)
            else if Holds(t, g) then Some(|gs|) else None
  {
    assert (gs + [g])[..|gs|] == gs;
  }

  lemma LastIndexSnoc(gs: seq<ScoreGroup>, g: ScoreGroup, t: GroupTest)
    ensures LastIndex(gs + [g], t) == if Holds(t, g) then Some(|gs|) else LastIndex(gs, t)
  {
    assert (gs + [g])[..|gs|] == gs;
  }

  /** `hasGroup(familyId, group)`: some group has this family and this unsorted key. */
  predicate Contains(gs: seq<ScoreGroup>, familyId: string, group: string)
  {
    exists i :: 0 <= i < |gs| && Holds(Keyed(familyId, group), gs[i])
  }

  // ---------------------------------------------------------------------------
  // getFamilyName, getGroup, instrumentSortingIndex

  /**
   * `getFamilyName(instrTemplate, soloist)` over the order's instrument map:
   * without a template `<unsorted>`; for a soloist `<soloists>`; otherwise the
   * order's override for the template, before the template's own family.
   */
  function FamilyName(m: map<string, InstrumentOverwrite>, t: Option<InstrumentTemplate>, soloist: bool): (r: string)
    ensures t.None? ==> r == UnsortedId
    ensures t.Some? && soloist ==> r == SoloistsId
    ensures t.Some? && !soloist && t.value.id in m ==> r == m[t.value.id].id
    ensures t.Some? && !soloist && t.value.id !in m && t.value.family.Some? ==> r == t.value.family.value.id
    ensures t.Some? && !soloist && t.value.id !in m && t.value.family.None? ==> r == UnsortedId
  {
    if t.None? then UnsortedId
    else if soloist then SoloistsId
    else if t.value.id in m then m[t.value.id].id
    else if t.value.family.Some? then t.value.family.value.id
    else UnsortedId
  }

  /** The generic unsorted group (family `<unsorted>`, empty key), or a default group. */
  function GenericUnsortedGroup(gs: seq<ScoreGroup>): ScoreGroup
  {
    var u := FirstIndex(gs, Keyed(UnsortedId, ""));
    if u.Some? then gs[u.value] else DefaultGroup
  }

  /**
   * `getGroup(family, instrumentGroup)`: for an empty family the generic
   * unsorted group; otherwise the first group of that family, failing that the
   * LAST unsorted group keyed `instrumentGroup`, failing that the generic one.
   */
  function GroupFor(gs: seq<ScoreGroup>, family: string, instrumentGroup: string): ScoreGroup
  {
    if family == "" then GenericUnsortedGroup(gs)
    else
      var f := FirstIndex(gs, FamilyIs(family));
      if f.Some? then gs[f.value] else FallbackGroup(gs, gs, instrumentGroup)
  }

  /**
   * The group `getGroup` falls back on once `scanned` has been searched in vain
   * for the family: the last unsorted group of `scanned` keyed
   * `instrumentGroup`, else the generic unsorted group of `gs`.
   */
  function FallbackGroup(gs: seq<ScoreGroup>, scanned: seq<ScoreGroup>, instrumentGroup: string): ScoreGroup
  {
    var u := LastIndex(scanned, Keyed(UnsortedId, instrumentGroup));
    if u.Some? then scanned[u.value] else GenericUnsortedGroup(gs)
  }

  lemma FallbackGroupSnoc(gs: seq<ScoreGroup>, scanned: seq<ScoreGroup>, g: ScoreGroup, instrumentGroup: string)
    ensures FallbackGroup(gs, scanned + [g], instrumentGroup) ==
            if Holds(Keyed(UnsortedId, instrumentGroup), g) then g else FallbackGroup(gs, scanned, instrumentGroup)
  {
    LastIndexSnoc(scanned, g, Keyed(UnsortedId, instrumentGroup));
    var u := LastIndex(scanned, Keyed(UnsortedId, instrumentGroup));
    if u.Some? {
      assert (scanned + [g])[u.value] == scanned[u.value];
    }
  }

  /** For an empty family `getGroup` answers the first `<unsorted>` group with an empty key. */
  lemma GroupForEmptyFamily(gs: seq<ScoreGroup>, instrumentGroup: string, i: nat)
    requires i < |gs| && gs[i].family == UnsortedId && Text(gs[i].unsorted) == ""
    requires forall j :: 0 <= j < i ==> !(gs[j].family == UnsortedId && Text(gs[j].unsorted) == "")
    ensures GroupFor(gs, "", instrumentGroup) == gs[i]
  {
    FirstIndexIs(gs, Keyed(UnsortedId, ""), i);
  }

  /** The first group of the family wins over every unsorted group. */
  lemma GroupForFamily(gs: seq<ScoreGroup>, family: string, instrumentGroup: string, i: nat)
    requires family != ""
    requires i < |gs| && gs[i].family == family
    requires forall j :: 0 <= j < i ==> gs[j].family != family
    ensures GroupFor(gs, family, instrumentGroup) == gs[i]
  {
    FirstIndexIs(gs, FamilyIs(family), i);
  }

  /**
   * With no group of the family, the LAST `<unsorted>` group keyed
   * `instrumentGroup` is chosen.
   */
  lemma GroupForKeyed(gs: seq<ScoreGroup>, family: string, instrumentGroup: string, i: nat)
    requires family != ""
    requires forall j :: 0 <= j < |gs| ==> gs[j].family != family
    requires i < |gs| && gs[i].family == UnsortedId && Text(gs[i].unsorted) == instrumentGroup
    requires forall j :: i < j < |gs| ==> !(gs[j].family == UnsortedId && Text(gs[j].unsorted) == instrumentGroup)
    ensures GroupFor(gs, family, instrumentGroup) == gs[i]
  {
    assert Holds(Keyed(UnsortedId, instrumentGroup), gs[i]);
  }

  /** Failing both, the generic unsorted group. */
  lemma GroupForGeneric(gs: seq<ScoreGroup>, family: string, instrumentGroup: string)
    requires family != ""
    requires forall j :: 0 <= j < |gs| ==> gs[j].family != family
    requires forall j :: 0 <= j < |gs| ==> !(gs[j].family == UnsortedId && Text(gs[j].unsorted) == instrumentGroup)
    ensures GroupFor(gs, family, instrumentGroup) == GenericUnsortedGroup(gs)
  {
  }

  /** The family `instrumentSortingIndex` sorts an instrument by. */
  function SortingFamily(m: map<string, InstrumentOverwrite>, instrumentId: string, t: InstrumentTemplate): string
  {
    if instrumentId in m then m[instrumentId].id else FamilyId(t)
  }

  /**
   * The position `instrumentSortingIndex` files an instrument under when it is
   * not a soloist placed with the soloists: the first group of its family,
   * else the first unsorted group keyed with its group id, else the first
   * unsorted group, else `dflt` (one past the last group).
   */
  function CascadeIndex(gs: seq<ScoreGroup>, family: string, groupId: string, dflt: nat): nat
  {
    var f := FirstIndex(gs, FamilyIs(family));
    var ug := FirstIndex(gs, Keyed(UnsortedId, groupId));
    var u := FirstIndex(gs, FamilyIs(UnsortedId));
    if f.Some? then f.value
    else if ug.Some? then ug.value
    else if u.Some? then u.value
    else dflt
  }

  /** The group index `instrumentSortingIndex` chooses for a template. */
  function SortingGroupIndex(gs: seq<ScoreGroup>, family: string, groupId: string, isSoloist: bool): (i: nat)
    ensures i <= |gs|
  {
    var s := FirstIndex(gs, FamilyIs(SoloistsId));
    if isSoloist && s.Some? then s.value else CascadeIndex(gs, family, groupId, |gs|)
  }

  /** The sorting index of the template `t` filed under group `index`. */
  function CalculateIndex(index: int, templateCount: int, t: InstrumentTemplate): int
  {
    index * templateCount + t.sequenceOrder
  }

  /** `instrumentSortingIndex(instrumentId, isSoloist)`, given the template lookup's answer `ii`. */
  function SortingIndex(gs: seq<ScoreGroup>, m: map<string, InstrumentOverwrite>, instrumentId: string,
                        isSoloist: bool, ii: InstrumentIndex): int
  {
    if ii.instrTemplate.None? then 0
    else
      var t := ii.instrTemplate.value;
      CalculateIndex(SortingGroupIndex(gs, SortingFamily(m, instrumentId, t), t.groupId, isSoloist),
                     ii.templateCount, t)
  }

  /** A soloist is filed under the first soloists group, when there is one. */
  lemma SortingIndexSoloist(gs: seq<ScoreGroup>, family: string, groupId: string, i: nat)
    requires i < |gs| && gs[i].family == SoloistsId
    requires forall j :: 0 <= j < i ==> gs[j].family != SoloistsId
    ensures SortingGroupIndex(gs, family, groupId, true) == i
  {
    FirstIndexIs(gs, FamilyIs(SoloistsId), i);
  }

  /** No soloists group applies: a non-soloist, or an order without soloists. */
  predicate NoSoloistPlacement(gs: seq<ScoreGroup>, isSoloist: bool)
  {
    !isSoloist || forall j :: 0 <= j < |gs| ==> gs[j].family != SoloistsId
  }

  lemma NoSoloistCascade(gs: seq<ScoreGroup>, family: string, groupId: string, isSoloist: bool)
    requires NoSoloistPlacement(gs, isSoloist)
    ensures SortingGroupIndex(gs, family, groupId, isSoloist) == CascadeIndex(gs, family, groupId, |gs|)
  {
  }

  /** Otherwise the first group of the instrument's family wins. */
  lemma SortingIndexFamily(gs: seq<ScoreGroup>, family: string, groupId: string, isSoloist: bool, i: nat)
    requires NoSoloistPlacement(gs, isSoloist)
    requires i < |gs| && gs[i].family == family
    requires forall j :: 0 <= j < i ==> gs[j].family != family
    ensures SortingGroupIndex(gs, family, groupId, isSoloist) == i
  {
    NoSoloistCascade(gs, family, groupId, isSoloist);
    FirstIndexIs(gs, FamilyIs(family), i);
  }

  /** Failing that, the first unsorted group keyed with the template's group id. */
  lemma SortingIndexUnsortedGroup(gs: seq<ScoreGroup>, family: string, groupId: string, isSoloist: bool, i: nat)
    requires NoSoloistPlacement(gs, isSoloist)
    requires forall j :: 0 <= j < |gs| ==> gs[j].family != family
    requires i < |gs| && gs[i].family == UnsortedId && Text(gs[i].unsorted) == groupId
    requires forall j :: 0 <= j < i ==> !(gs[j].family == UnsortedId && Text(gs[j].unsorted) == groupId)
    ensures SortingGroupIndex(gs, family, groupId, isSoloist) == i
  {
    NoSoloistCascade(gs, family, groupId, isSoloist);
    FirstIndexIs(gs, Keyed(UnsortedId, groupId), i);
  }

  /** Failing that, the first unsorted group of any key. */
  lemma SortingIndexUnsorted(gs: seq<ScoreGroup>, family: string, groupId: string, isSoloist: bool, i: nat)
    requires NoSoloistPlacement(gs, isSoloist)
    requires forall j :: 0 <= j < |gs| ==> gs[j].family != family
    requires forall j :: 0 <= j < |gs| ==> !(gs[j].family == UnsortedId && Text(gs[j].unsorted) == groupId)
    requires i < |gs| && gs[i].family == UnsortedId
    requires forall j :: 0 <= j < i ==> gs[j].family != UnsortedId
    ensures SortingGroupIndex(gs, family, groupId, isSoloist) == i
  {
    NoSoloistCascade(gs, family, groupId, isSoloist);
    FirstIndexIs(gs, FamilyIs(UnsortedId), i);
  }

  /** With none of these, one past the last group. */
  lemma SortingIndexNone(gs: seq<ScoreGroup>, family: string, groupId: string, isSoloist: bool)
    requires NoSoloistPlacement(gs, isSoloist)
    requires forall j :: 0 <= j < |gs| ==> gs[j].family != family && gs[j].family != UnsortedId
    ensures SortingGroupIndex(gs, family, groupId, isSoloist) == |gs|
  {
    NoSoloistCascade(gs, family, groupId, isSoloist);
  }

  // ---------------------------------------------------------------------------
  // What reading an order keeps true of its groups

  /**
   * Every group made from an `<unsorted>` element (family `<unsorted>`, key
   * not null) has a key that no earlier `<unsorted>` group has.
   */
  ghost predicate UnsortedKeysFresh(gs: seq<ScoreGroup>)
  {
    forall i, j ::
      (0 <= i < j < |gs| && gs[j].family == UnsortedId && gs[j].unsorted.Some? && gs[i].family == UnsortedId)
      ==> Text(gs[i].unsorted) != gs[j].unsorted.value
  }

  /** Every group made from a `<soloists>` element has no soloists group before it. */
  ghost predicate SoloistsEntryFresh(gs: seq<ScoreGroup>)
  {
    forall i, j :: 0 <= i < j < |gs| && gs[j] == SoloistsGroup(gs[j].section) ==>
      !Holds(Keyed(SoloistsId, ""), gs[i])
  }

  /** The condition under which the reader may append `g`: the duplicate checks it makes. */
  predicate Admissible(gs: seq<ScoreGroup>, g: ScoreGroup)
  {
    && (g.family == UnsortedId && g.unsorted.Some? ==> !Contains(gs, UnsortedId, g.unsorted.value))
    && (g == SoloistsGroup(g.section) ==> !Contains(gs, SoloistsId, ""))
  }

  /** Every group passed the reader's duplicate checks when it was appended. */
  ghost predicate WellFormed(gs: seq<ScoreGroup>)
    decreases |gs|
  {
    |gs| == 0 || (WellFormed(gs[..|gs| - 1]) && Admissible(gs[..|gs| - 1], gs[|gs| - 1]))
  }

  lemma AppendAdmissible(gs: seq<ScoreGroup>, g: ScoreGroup)
    requires WellFormed(gs) && Admissible(gs, g)
    ensures WellFormed(gs + [g])
  {
    assert (gs + [g])[..|gs|] == gs;
  }

  /** A list built by admissible appends has fresh unsorted keys and fresh soloists entries. */
  lemma {:induction false} WellFormedFresh(gs: seq<ScoreGroup>)
    requires WellFormed(gs)
    ensures UnsortedKeysFresh(gs) && SoloistsEntryFresh(gs)
    decreases |gs|
  {
    if |gs| > 0 {
      var init := gs[..|gs| - 1];
      var g := gs[|gs| - 1];
      WellFormedFresh(init);
      forall i, j | 0 <= i < j < |gs| && gs[j].family == UnsortedId && gs[j].unsorted.Some?
        && gs[i].family == UnsortedId
        ensures Text(gs[i].unsorted) != gs[j].unsorted.value
      {
        assert gs[i] == init[i];
        if j == |init| {
          assert !Holds(Keyed(UnsortedId, g.unsorted.value), init[i]);
        } else {
          assert gs[j] == init[j];
        }
      }
      forall i, j | 0 <= i < j < |gs| && gs[j] == SoloistsGroup(gs[j].section)
        ensures !Holds(Keyed(SoloistsId, ""), gs[i])
      {
        assert gs[i] == init[i];
        if j < |init| {
          assert gs[j] == init[j];
        }
      }
    }
  }

  /** No two groups made from `<unsorted>` elements share a key. */
  lemma UnsortedKeysUnique(gs: seq<ScoreGroup>, i: nat, j: nat)
    requires WellFormed(gs)
    requires i < |gs| && j < |gs| && i != j
    requires gs[i].family == UnsortedId && gs[i].unsorted.Some?
    requires gs[j].family == UnsortedId && gs[j].unsorted.Some?
    ensures gs[i].unsorted != gs[j].unsorted
  {
    WellFormedFresh(gs);
  }

  /** At most one group made from a `<soloists>` element. */
  lemma SoloistsEntryUnique(gs: seq<ScoreGroup>, i: nat, j: nat)
    requires WellFormed(gs)
    requires i < j < |gs|
    requires gs[i] == SoloistsGroup(gs[i].section)
    ensures gs[j] != SoloistsGroup(gs[j].section)
  {
    WellFormedFresh(gs);
    assert Holds(Keyed(SoloistsId, ""), gs[i]);
  }

  // ---------------------------------------------------------------------------
  // How the queries relate

  /** A soloist with a template is placed with the first soloists group by both queries. */
  lemma SoloistPlacementAgrees(gs: seq<ScoreGroup>, m: map<string, InstrumentOverwrite>,
                               t: InstrumentTemplate, i: nat)
    requires i < |gs| && gs[i].family == SoloistsId
    requires forall j :: 0 <= j < i ==> gs[j].family != SoloistsId
    ensures GroupFor(gs, FamilyName(m, Some(t), true), t.groupId) == gs[i]
    ensures SortingGroupIndex(gs, SortingFamily(m, t.id, t), t.groupId, true) == i
  {
    FirstIndexIs(gs, FamilyIs(SoloistsId), i);
  }

  /**
   * An instrument that is not a soloist and whose family (from the map, else
   * from the template) has a group is placed with the first group of that
   * family by both queries.
   */
  lemma FamilyPlacementAgrees(gs: seq<ScoreGroup>, m: map<string, InstrumentOverwrite>,
                              t: InstrumentTemplate, i: nat)
    requires t.id in m || t.family.Some?
    requires FamilyName(m, Some(t), false) != ""
    requires i < |gs| && gs[i].family == FamilyName(m, Some(t), false)
    requires forall j :: 0 <= j < i ==> gs[j].family != gs[i].family
    ensures GroupFor(gs, FamilyName(m, Some(t), false), t.groupId) == gs[i]
    ensures SortingGroupIndex(gs, SortingFamily(m, t.id, t), t.groupId, false) == i
  {
    assert SortingFamily(m, t.id, t) == FamilyName(m, Some(t), false);
    FirstIndexIs(gs, FamilyIs(gs[i].family), i);
  }

  /** An instrument without a template is placed with the first `<unsorted>` group, whatever its key. */
  lemma NoTemplateGroup(gs: seq<ScoreGroup>, m: map<string, InstrumentOverwrite>, soloist: bool,
                        instrumentGroup: string, i: nat)
    requires i < |gs| && gs[i].family == UnsortedId
    requires forall j :: 0 <= j < i ==> gs[j].family != UnsortedId
    ensures GroupFor(gs, FamilyName(m, None, soloist), instrumentGroup) == gs[i]
  {
    FirstIndexIs(gs, FamilyIs(UnsortedId), i);
  }
}
