/**
 * `Ms::ScoreOrder` (libmscore/scoreorder.cpp): the order in which instrument
 * families appear in a score, read from and written to `orders.xml`.
 *
 * The readers append to `groups` and insert into `instrumentMap` in place; the
 * queries (`hasGroup`, `getGroup`, `instrumentSortingIndex`, `isScoreOrder`)
 * run the source's loops and are proved against the functions of ScoreGroups;
 * `write` is proved against OrderEvents of ScoreOrderWrite.
 */
module ScoreOrders {
  import opened Wrappers
  import opened Xml
  import opened ScoreGroups
  import opened ScoreOrderWrite
  import opened ScoreOrderRead

  // ---------------------------------------------------------------------------
  // updateInstruments

  /** The lookup found a template, and the template has a family. */
  predicate HasFamily(ii: InstrumentIndex)
  {
    ii.instrTemplate.Some? && ii.instrTemplate.value.family.Some?
  }

  /** The entry `updateInstruments` makes for a template with a family. */
  function FamilyEntry(t: InstrumentTemplate): InstrumentOverwrite
    requires t.family.Some?
  {
    InstrumentOverwrite(t.family.value.id, t.family.value.name)
  }

  /**
   * The instrument map after `updateInstruments` over parts whose instruments
   * have the ids `ids`: each template with a family adds its family under the
   * template's id.
   */
  function WithFamilies(m: map<string, InstrumentOverwrite>, ids: seq<string>, lookup: TemplateLookup)
    : map<string, InstrumentOverwrite>
  {
    if ids == [] then m
    else
      var m' := WithFamilies(m, ids[..|ids| - 1], lookup);
      var ii := lookup(ids[|ids| - 1]);
      if HasFamily(ii) then InsertIfAbsent(m', ii.instrTemplate.value.id, FamilyEntry(ii.instrTemplate.value))
      else m'
  }

  /** `updateInstruments` never changes an entry that is already in the map. */
  lemma {:induction false} WithFamiliesKeeps(m: map<string, InstrumentOverwrite>, ids: seq<string>,
                                             lookup: TemplateLookup, k: string)
    requires k in m
    ensures k in WithFamilies(m, ids, lookup) && WithFamilies(m, ids, lookup)[k] == m[k]
    decreases |ids|
  {
    if ids != [] {
      WithFamiliesKeeps(m, ids[..|ids| - 1], lookup, k);
    }
  }

  /**
   * Afterwards the map has an entry for the template of every instrument that
   * has a family, and every new entry is the family of such a template.
   */
  lemma {:induction false} WithFamiliesCovers(m: map<string, InstrumentOverwrite>, ids: seq<string>,
                                              lookup: TemplateLookup)
    ensures forall i :: 0 <= i < |ids| && HasFamily(lookup(ids[i])) ==>
              lookup(ids[i]).instrTemplate.value.id in WithFamilies(m, ids, lookup)
    ensures forall k :: k in WithFamilies(m, ids, lookup) && k !in m ==>
              exists i :: (0 <= i < |ids| && HasFamily(lookup(ids[i]))
                && lookup(ids[i]).instrTemplate.value.id == k
                && WithFamilies(m, ids, lookup)[k] == FamilyEntry(lookup(ids[i]).instrTemplate.value))
    decreases |ids|
  {
    if ids != [] {
      var init := ids[..|ids| - 1];
      WithFamiliesCovers(m, init, lookup);
      var m' := WithFamilies(m, init, lookup);
      var w := WithFamilies(m, ids, lookup);
      forall i | 0 <= i < |ids| && HasFamily(lookup(ids[i]))
        ensures lookup(ids[i]).instrTemplate.value.id in w
      {
        if i < |init| {
          assert ids[i] == init[i];
        }
      }
      forall k | k in w && k !in m
        ensures exists i :: (0 <= i < |ids| && HasFamily(lookup(ids[i]))
                && lookup(ids[i]).instrTemplate.value.id == k
                && w[k] == FamilyEntry(lookup(ids[i]).instrTemplate.value))
      {
        if k in m' {
          var i :| 0 <= i < |init| && HasFamily(lookup(init[i]))
                && lookup(init[i]).instrTemplate.value.id == k
                && m'[k] == FamilyEntry(lookup(init[i]).instrTemplate.value);
          assert ids[i] == init[i];
        } else {
          assert lookup(ids[|ids| - 1]).instrTemplate.value.id == k;
        }
      }
    }
  }

  // ---------------------------------------------------------------------------
  // isScoreOrder

  /** The indices never decrease and the first is at least -1. */
  predicate InScoreOrder(indices: seq<int>)
  {
    (|indices| == 0 || indices[0] >= -1) && forall k :: 0 < k < |indices| ==> indices[k - 1] <= indices[k]
  }

  /** Checking neighbours is the same as checking every pair. */
  lemma {:induction false} InScoreOrderSorted(indices: seq<int>)
    ensures InScoreOrder(indices) <==>
            forall i, j :: 0 <= i <= j < |indices| ==> -1 <= indices[i] <= indices[j]
    decreases |indices|
  {
    if |indices| > 1 {
      var init := indices[..|indices| - 1];
      InScoreOrderSorted(init);
      if InScoreOrder(indices) {
        assert InScoreOrder(init);
        forall i, j | 0 <= i <= j < |indices| ensures -1 <= indices[i] <= indices[j] {
          if j == |indices| - 1 {
            assert -1 <= init[|init| - 1] <= indices[j];
            if i < j {
              assert init[i] <= init[|init| - 1];
            }
          } else {
            assert init[i] <= init[j];
          }
        }
      }
      if forall i, j :: 0 <= i <= j < |indices| ==> -1 <= indices[i] <= indices[j] {
        assert forall k :: 0 < k < |indices| ==> indices[k - 1] <= indices[k] by {
          forall k | 0 < k < |indices| ensures indices[k - 1] <= indices[k] {
            assert -1 <= indices[k - 1] <= indices[k];
          }
        }
      }
    }
  }

  // ---------------------------------------------------------------------------
  // instrumentSortingIndex

  /** The priority of the group `instrumentSortingIndex` has chosen so far. */
  datatype Priority = Undefined | Unsorted | UnsortedGroup | Family | Soloist
  {
    function Rank(): nat
    {
      match this
      case Undefined => 0
      case Unsorted => 1
      case UnsortedGroup => 2
      case Family => 3
      case Soloist => 4
    }
  }

  /** The priority reached after scanning `gs` for an instrument of `family` and `groupId`. */
  function PriorityAfter(gs: seq<ScoreGroup>, family: string, groupId: string): Priority
  {
    if FirstIndex(gs, FamilyIs(family)).Some? then Family
    else if FirstIndex(gs, Keyed(UnsortedId, groupId)).Some? then UnsortedGroup
    else if FirstIndex(gs, FamilyIs(UnsortedId)).Some? then Unsorted
    else Undefined
  }

  /** One more group scanned: how the chosen index and priority move, as the loop body of the source moves them. */
  lemma CascadeSnoc(gs: seq<ScoreGroup>, g: ScoreGroup, family: string, groupId: string, dflt: nat)
    ensures
      var p := PriorityAfter(gs, family, groupId);
      var p' := PriorityAfter(gs + [g], family, groupId);
      var i' := CascadeIndex(gs + [g], family, groupId, dflt);
      if p.Rank() < Family.Rank() && g.family == family then i' == |gs| && p' == Family
      else if p.Rank() < UnsortedGroup.Rank() && g.family == UnsortedId && Text(g.unsorted) == groupId then
        i' == |gs| && p' == UnsortedGroup
      else if p.Rank() < Unsorted.Rank() && g.family == UnsortedId then i' == |gs| && p' == Unsorted
      else i' == CascadeIndex(gs, family, groupId, dflt) && p' == p
  {
    FirstIndexSnoc(gs, g, FamilyIs(family));
    FirstIndexSnoc(gs, g, Keyed(UnsortedId, groupId));
    FirstIndexSnoc(gs, g, FamilyIs(UnsortedId));
  }

  /** `after` extends `before` by groups of section `sectionId`, all bracketed. */
  ghost predicate SectionGrowth(before: seq<ScoreGroup>, after: seq<ScoreGroup>, sectionId: string)
  {
    before <= after && forall i :: |before| <= i < |after| ==> after[i].section == sectionId && after[i].bracket
  }

  // ---------------------------------------------------------------------------
  // The order

  class ScoreOrder {
    var id: string
    var name: string
    var customized: bool
    var groups: seq<ScoreGroup>
    var instrumentMap: map<string, InstrumentOverwrite>

    constructor ()
      ensures id == "" && name == "" && !customized && groups == [] && instrumentMap == map[]
    {
      id := "";
      name := "";
      customized := false;
      groups := [];
      instrumentMap := map[];
    }

    /** The fields `read` fills in. */
    function State(): OrderState
      reads this
    {
      OrderState(name, groups, instrumentMap)
    }

    /** `operator==`: orders are identified by their id. */
    predicate Equals(order: ScoreOrder)
      reads this, order
    {
      id == order.id
    }

    /** `operator!=`. */
    function NotEquals(order: ScoreOrder): (r: bool)
      reads this, order
      ensures r <==> id != order.id
      ensures r <==> !order.Equals(this)
    {
      !Equals(order)
    }

    function IsValid(): bool
      reads this
    {
      id != ""
    }

    /** The custom order accepts any instrument order. */
    function IsCustom(): (r: bool)
      reads this
      ensures r ==> IsValid()
    {
      id == "custom"
    }

    /** `clone()`: a new order with the same fields and a copy of each group. */
    method Clone() returns (newOrder: ScoreOrder)
      ensures fresh(newOrder)
      ensures newOrder.id == id && newOrder.name == name && newOrder.customized == customized
      ensures newOrder.instrumentMap == instrumentMap && newOrder.groups == groups
      ensures newOrder.Equals(this)
    {
      newOrder := new ScoreOrder();
      newOrder.id := id;
      newOrder.name := name;
      newOrder.customized := customized;
      newOrder.instrumentMap := instrumentMap;
      for i := 0 to |groups|
        invariant newOrder.id == id && newOrder.name == name && newOrder.customized == customized
        invariant newOrder.instrumentMap == instrumentMap
        invariant newOrder.groups == groups[..i]
      {
        var sg := groups[i];
        var newGroup := DefaultGroup.(family := sg.family, section := sg.section, unsorted := sg.unsorted,
          bracket := sg.bracket, showSystemMarkings := sg.showSystemMarkings, barLineSpan := sg.barLineSpan,
          thinBracket := sg.thinBracket);
        newOrder.groups := newOrder.groups + [newGroup];
      }
    }

    /** `hasGroup(familyId, group)`. */
    method HasGroup(familyId: string, group: string) returns (r: bool)
      ensures r == Contains(groups, familyId, group)
    {
      for i := 0 to |groups|
        invariant forall j :: 0 <= j < i ==> !Holds(Keyed(familyId, group), groups[j])
      {
        if groups[i].family == familyId && group == Text(groups[i].unsorted) {
          return true;
        }
      }
      return false;
    }

    /** `getGroup(family, instrumentGroup)`. */
    method GetGroup(family: string, instrumentGroup: string) returns (sg: ScoreGroup)
      ensures sg == GroupFor(groups, family, instrumentGroup)
    {
      var unsortedScoreGroup := DefaultGroup;
      var i := 0;
      while i < |groups|
        invariant 0 <= i <= |groups|
        invariant forall j :: 0 <= j < i ==> !Holds(Keyed(UnsortedId, ""), groups[j])
      {
        if groups[i].family == UnsortedId && Text(groups[i].unsorted) == "" {
          FirstIndexIs(groups, Keyed(UnsortedId, ""), i);
          unsortedScoreGroup := groups[i];
          break;
        }
        i := i + 1;
      }
      assert unsortedScoreGroup == GenericUnsortedGroup(groups);

      if family == "" {
        return unsortedScoreGroup;
      }

      for k := 0 to |groups|
        invariant forall j :: 0 <= j < k ==> groups[j].family != family
        invariant unsortedScoreGroup == FallbackGroup(groups, groups[..k], instrumentGroup)
      {
        if groups[k].family == family {
          FirstIndexIs(groups, FamilyIs(family), k);
          return groups[k];
        }
        if groups[k].family == UnsortedId && Text(groups[k].unsorted) == instrumentGroup {
          unsortedScoreGroup := groups[k];
        }
        assert groups[..k + 1] == groups[..k] + [groups[k]];
        FallbackGroupSnoc(groups, groups[..k], groups[k], instrumentGroup);
      }
      assert groups[..|groups|] == groups;
      assert FirstIndex(groups, FamilyIs(family)).None?;
      return unsortedScoreGroup;
    }

    /** `instrumentSortingIndex(instrumentId, isSoloist)`, with the template lookup `lookup`. */
    method InstrumentSortingIndex(instrumentId: string, isSoloist: bool, lookup: TemplateLookup) returns (r: int)
      ensures r == SortingIndex(groups, instrumentMap, instrumentId, isSoloist, lookup(instrumentId))
    {
      var ii := lookup(instrumentId);
      if ii.instrTemplate.None? {
        return 0;
      }
      var t := ii.instrTemplate.value;
      var family := if instrumentId in instrumentMap then instrumentMap[instrumentId].id else FamilyId(t);
      var index := ScanGroups(groups, family, t.groupId, isSoloist);
      return CalculateIndex(index, ii.templateCount, t);
    }

    /**
     * The scan over the groups in `instrumentSortingIndex`: a soloist stops at
     * the first soloists group; otherwise the group of highest priority seen
     * first is kept.
     */
    static method ScanGroups(gs: seq<ScoreGroup>, family: string, groupId: string, isSoloist: bool)
      returns (index: nat)
      ensures index == SortingGroupIndex(gs, family, groupId, isSoloist)
    {
      index := |gs|;
      var priority := Undefined;
      for i := 0 to |gs|
        invariant index == CascadeIndex(gs[..i], family, groupId, |gs|)
        invariant priority == PriorityAfter(gs[..i], family, groupId)
        invariant isSoloist ==> FirstIndex(gs[..i], FamilyIs(SoloistsId)).None?
      {
        var sg := gs[i];
        assert gs[..i + 1] == gs[..i] + [sg];
        FirstIndexSnoc(gs[..i], sg, FamilyIs(SoloistsId));
        if sg.family == SoloistsId && isSoloist {
          FirstIndexIs(gs, FamilyIs(SoloistsId), i);
          return i;
        }
        index, priority := ConsiderGroup(gs[..i], sg, family, groupId, |gs|, index, priority);
      }
      assert gs[..|gs|] == gs;
    }

    /**
     * The body of the scan in `instrumentSortingIndex` for a group `sg` that is
     * not taken as the soloists' group: a group of higher priority than the one
     * chosen so far replaces it.
     */
    static method ConsiderGroup(scanned: seq<ScoreGroup>, sg: ScoreGroup, family: string, groupId: string, dflt: nat,
                                index: nat, priority: Priority) returns (index': nat, priority': Priority)
      requires index == CascadeIndex(scanned, family, groupId, dflt)
      requires priority == PriorityAfter(scanned, family, groupId)
      ensures index' == CascadeIndex(scanned + [sg], family, groupId, dflt)
      ensures priority' == PriorityAfter(scanned + [sg], family, groupId)
    {
      CascadeSnoc(scanned, sg, family, groupId, dflt);
      index', priority' := index, priority;
      if priority.Rank() < Family.Rank() && sg.family == family {
        index' := |scanned|;
        priority' := Family;
      } else if priority.Rank() < UnsortedGroup.Rank() && sg.family == UnsortedId && Text(sg.unsorted) == groupId {
        index' := |scanned|;
        priority' := UnsortedGroup;
      } else if priority.Rank() < Unsorted.Rank() && sg.family == UnsortedId {
        index' := |scanned|;
        priority' := Unsorted;
      }
    }

    /** `isScoreOrder(indices)`. */
    method IsScoreOrder(indices: seq<int>) returns (r: bool)
      ensures r <==> IsCustom() || InScoreOrder(indices)
    {
      if IsCustom() {
        return true;
      }
      var prvIndex := -1;
      for i := 0 to |indices|
        invariant prvIndex == if i == 0 then -1 else indices[i - 1]
        invariant InScoreOrder(indices[..i])
      {
        var curIndex := indices[i];
        if curIndex < prvIndex {
          return false;
        }
        prvIndex := curIndex;
      }
      assert indices[..|indices|] == indices;
      return true;
    }

    // -------------------------------------------------------------------------
    // Reading

    /** `groups.push_back(sg)`, where the reader's duplicate checks have made `sg` admissible. */
    method Push(sg: ScoreGroup)
      requires Admissible(groups, sg)
      modifies this
      ensures groups == old(groups) + [sg]
      ensures id == old(id) && name == old(name) && customized == old(customized)
      ensures instrumentMap == old(instrumentMap)
      ensures WellFormed(old(groups)) ==> WellFormed(groups)
    {
      if WellFormed(groups) {
        AppendAdmissible(groups, sg);
      }
      groups := groups + [sg];
    }

    /** `readInstrument(reader)`: family overrides of one instrument. */
    method ReadInstrument(reader: XmlReader, lookup: TemplateLookup)
      requires reader.Valid() && reader.AtStart()
      modifies this, reader
      ensures reader.Valid()
      ensures (instrumentMap, reader.pos) == InstrumentStep(reader.tokens, old(reader.pos), old(instrumentMap), lookup)
      ensures id == old(id) && name == old(name) && customized == old(customized) && groups == old(groups)
      ensures forall k :: k in old(instrumentMap) ==> k in instrumentMap && instrumentMap[k] == old(instrumentMap[k])
      ensures forall k :: k in instrumentMap && k !in old(instrumentMap) ==> k == old(reader.Attribute("id"))
    {
      var instrumentId := reader.Attribute("id");
      if lookup(instrumentId).instrTemplate.None? {
        reader.SkipCurrentElement();
        return;
      }
      ghost var p := reader.pos;
      var more := reader.ReadNextStartElement();
      while more
        invariant reader.Valid() && p < reader.pos
        invariant more <==> reader.AtStart()
        invariant id == old(id) && name == old(name) && customized == old(customized) && groups == old(groups)
        invariant forall k :: k in old(instrumentMap) ==> k in instrumentMap && instrumentMap[k] == old(instrumentMap[k])
        invariant forall k :: k in instrumentMap && k !in old(instrumentMap) ==> k == instrumentId
        invariant FamilyOverrides(reader.tokens, SiblingsFrom(reader.tokens, reader.pos), instrumentId, instrumentMap)
                  == FamilyOverrides(reader.tokens, Children(reader.tokens, p), instrumentId, old(instrumentMap))
        invariant SiblingsEnd(reader.tokens, reader.pos) == ChildrenEnd(reader.tokens, p)
        decreases |reader.tokens| - reader.pos + (if more then 1 else 0)
      {
        ghost var c := reader.pos;
        ReadInstrumentElement(reader, instrumentId);
        more := reader.ReadNextStartElement();
        assert SiblingsFrom(reader.tokens, c) == [c] + SiblingsFrom(reader.tokens, reader.pos);
      }
    }

    /**
     * One child element of `<instrument>`: a `<family>` overrides the family of
     * `instrumentId`, unless the map already has an entry for it.
     */
    method ReadInstrumentElement(reader: XmlReader, instrumentId: string)
      requires reader.Valid() && reader.AtStart()
      modifies this, reader
      ensures reader.Valid() && reader.pos == ElementEnd(reader.tokens, old(reader.pos))
      ensures id == old(id) && name == old(name) && customized == old(customized) && groups == old(groups)
      ensures instrumentMap == if old(reader.Name()) == "family"
                               then InsertIfAbsent(old(instrumentMap), instrumentId,
                                                   FamilyOverride(reader.tokens, old(reader.pos)))
                               else old(instrumentMap)
    {
      if reader.Name() == "family" {
        var familyId := reader.Attribute("id");
        var familyName := reader.ReadElementText();
        instrumentMap := InsertIfAbsent(instrumentMap, instrumentId, InstrumentOverwrite(familyId, familyName));
      } else {
        reader.SkipCurrentElement();
      }
    }

    /** `readSoloists(reader, section)`: at most one soloists group. */
    method ReadSoloists(reader: XmlReader, section: string)
      requires reader.Valid() && reader.AtStart()
      modifies this, reader
      ensures reader.Valid() && reader.pos == ElementEnd(reader.tokens, old(reader.pos))
      ensures id == old(id) && name == old(name) && customized == old(customized)
      ensures instrumentMap == old(instrumentMap)
      ensures groups == if Contains(old(groups), SoloistsId, "") then old(groups)
                        else old(groups) + [SoloistsGroup(section)]
      ensures WellFormed(old(groups)) ==> WellFormed(groups)
    {
      reader.SkipCurrentElement();
      var has := HasGroup(SoloistsId, "");
      if has {
        return;
      }
      Push(SoloistsGroup(section));
    }

    /**
     * `readSection(reader)`: the families and unsorted groups of one section.
     * A duplicate `<unsorted>` ends the section early, leaving the reader
     * inside it.
     */
    method ReadSection(reader: XmlReader)
      requires reader.Valid() && reader.AtStart()
      modifies this, reader
      ensures reader.Valid()
      ensures (groups, reader.pos) == SectionStep(reader.tokens, old(reader.pos), old(groups))
      ensures id == old(id) && name == old(name) && customized == old(customized)
      ensures instrumentMap == old(instrumentMap)
      ensures SectionGrowth(old(groups), groups, old(reader.Attribute("id")))
      ensures WellFormed(old(groups)) ==> WellFormed(groups)
    {
      var sectionId := reader.Attribute("id");
      var showSystemMarkings := ReadBoolAttribute(reader.AttributeValue("showSystemMarkings"), false);
      var barLineSpan := ReadBoolAttribute(reader.AttributeValue("barLineSpan"), true);
      var thinBrackets := ReadBoolAttribute(reader.AttributeValue("thinBrackets"), true);
      var attrs := SectionAttrs(sectionId, showSystemMarkings, barLineSpan, thinBrackets);
      ghost var p := reader.pos;
      assert attrs == SectionAttrsAt(reader.tokens, p);
      var more := reader.ReadNextStartElement();
      while more
        invariant reader.Valid() && p < reader.pos
        invariant more <==> reader.AtStart()
        invariant id == old(id) && name == old(name) && customized == old(customized)
        invariant instrumentMap == old(instrumentMap)
        invariant SectionGrowth(old(groups), groups, sectionId)
        invariant WellFormed(old(groups)) ==> WellFormed(groups)
        invariant ReadSectionChildren(reader.tokens, SiblingsFrom(reader.tokens, reader.pos), attrs, groups)
                  == ReadSectionChildren(reader.tokens, Children(reader.tokens, p), attrs, old(groups))
        invariant SiblingsEnd(reader.tokens, reader.pos) == ChildrenEnd(reader.tokens, p)
        decreases |reader.tokens| - reader.pos + (if more then 1 else 0)
      {
        ghost var c := reader.pos;
        ghost var before := groups;
        var duplicate := ReadSectionElement(reader, attrs);
        if duplicate {
          assert ReadSectionChildren(reader.tokens, SiblingsFrom(reader.tokens, c), attrs, before)
                 == SectionResult(groups, Some(c));
          return;
        }
        more := reader.ReadNextStartElement();
        assert SiblingsFrom(reader.tokens, c) == [c] + SiblingsFrom(reader.tokens, reader.pos);
      }
    }

    /**
     * One child element of `<section>`, dispatched on its name as
     * `readSection` does; `duplicate` when it was an `<unsorted>` whose key
     * exists already.
     */
    method ReadSectionElement(reader: XmlReader, attrs: SectionAttrs) returns (duplicate: bool)
      requires reader.Valid() && reader.AtStart()
      modifies this, reader
      ensures reader.Valid() && reader.pos == ElementEnd(reader.tokens, old(reader.pos))
      ensures id == old(id) && name == old(name) && customized == old(customized)
      ensures instrumentMap == old(instrumentMap)
      ensures duplicate == DuplicateAt(reader.tokens, old(reader.pos), old(groups))
      ensures groups == if duplicate then old(groups)
                        else old(groups) + SectionChildGroups(reader.tokens, old(reader.pos), attrs)
      ensures SectionGrowth(old(groups), groups, attrs.id)
      ensures WellFormed(old(groups)) ==> WellFormed(groups)
    {
      duplicate := false;
      if reader.Name() == "family" {
        ReadSectionFamily(reader, attrs);
      } else if reader.Name() == "unsorted" {
        duplicate := ReadSectionUnsorted(reader, attrs.id);
      } else {
        reader.SkipCurrentElement();
      }
    }

    /** A `<family>` child of a section: a bracketed family group with the section's flags. */
    method ReadSectionFamily(reader: XmlReader, attrs: SectionAttrs)
      requires reader.Valid() && reader.AtStart()
      modifies this, reader
      ensures reader.Valid() && reader.pos == ElementEnd(reader.tokens, old(reader.pos))
      ensures id == old(id) && name == old(name) && customized == old(customized)
      ensures instrumentMap == old(instrumentMap)
      ensures groups == old(groups) + [ScoreGroup(ElementText(reader.tokens, old(reader.pos)), attrs.id, None, true,
                                                  attrs.showSystemMarkings, attrs.barLineSpan, attrs.thinBrackets)]
      ensures SectionGrowth(old(groups), groups, attrs.id)
      ensures WellFormed(old(groups)) ==> WellFormed(groups)
    {
      var family := reader.ReadElementText();
      var sg := ScoreGroup(family, attrs.id, None, true, attrs.showSystemMarkings, attrs.barLineSpan,
                           attrs.thinBrackets);
      Push(sg);
    }

    /**
     * An `<unsorted>` child of a section: a bracketed unsorted group with its
     * own flags, unless one with that key exists (`duplicate`).
     */
    method ReadSectionUnsorted(reader: XmlReader, sectionId: string) returns (duplicate: bool)
      requires reader.Valid() && reader.AtStart()
      modifies this, reader
      ensures reader.Valid() && reader.pos == ElementEnd(reader.tokens, old(reader.pos))
      ensures id == old(id) && name == old(name) && customized == old(customized)
      ensures instrumentMap == old(instrumentMap)
      ensures duplicate <==> Contains(old(groups), UnsortedId, old(reader.AttributeOr("group", "")))
      ensures duplicate ==> groups == old(groups)
      ensures !duplicate ==> groups == old(groups) + [ScoreGroup(UnsortedId, sectionId,
                Some(old(reader.AttributeOr("group", ""))), true,
                ReadBoolAttribute(old(reader.AttributeValue("showSystemMarkings")), false),
                ReadBoolAttribute(old(reader.AttributeValue("barLineSpan")), true),
                ReadBoolAttribute(old(reader.AttributeValue("thinBrackets")), true))]
      ensures SectionGrowth(old(groups), groups, sectionId)
      ensures WellFormed(old(groups)) ==> WellFormed(groups)
    {
      var group := reader.AttributeOr("group", "");
      duplicate := HasGroup(UnsortedId, group);
      if duplicate {
        reader.SkipCurrentElement();
        return;
      }
      var sg := ScoreGroup(UnsortedId, sectionId, Some(group), true,
        ReadBoolAttribute(reader.AttributeValue("showSystemMarkings"), false),
        ReadBoolAttribute(reader.AttributeValue("barLineSpan"), true),
        ReadBoolAttribute(reader.AttributeValue("thinBrackets"), true));
      Push(sg);
      reader.SkipCurrentElement();
    }

    /**
     * `read(reader)`: one `<Order>` element. The name, groups and instrument
     * map are those the children read from the cursor on give, followed by
     * the generic unsorted group.
     */
    method Read(reader: XmlReader, lookup: TemplateLookup)
      requires reader.Valid()
      modifies this, reader
      ensures reader.Valid()
      ensures old(reader.pos) < |reader.tokens| ==> old(reader.pos) < reader.pos
      ensures id == old(reader.Attribute("id")) && customized == old(customized)
      ensures var st := ReadOrderFrom(reader.tokens, NextTag(reader.tokens, old(reader.pos)), old(State()), lookup);
              name == st.name && instrumentMap == st.instrumentMap && groups == WithGenericGroup(st.groups, id)
      ensures old(groups) <= groups
      ensures Contains(groups, UnsortedId, "")
      ensures WellFormed(old(groups)) ==> WellFormed(groups)
      ensures forall k :: k in old(instrumentMap) ==> k in instrumentMap && instrumentMap[k] == old(instrumentMap[k])
    {
      id := reader.Attribute("id");
      ghost var target := ReadOrderFrom(reader.tokens, NextTag(reader.tokens, reader.pos), State(), lookup);
      var more := reader.ReadNextStartElement();
      while more
        invariant reader.Valid()
        invariant old(reader.pos) < |reader.tokens| ==> old(reader.pos) < reader.pos
        invariant more <==> reader.AtStart()
        invariant id == old(reader.Attribute("id")) && customized == old(customized)
        invariant old(groups) <= groups
        invariant WellFormed(old(groups)) ==> WellFormed(groups)
        invariant forall k :: k in old(instrumentMap) ==> k in instrumentMap && instrumentMap[k] == old(instrumentMap[k])
        invariant ReadOrderFrom(reader.tokens, reader.pos, State(), lookup) == target
        decreases |reader.tokens| - reader.pos + (if more then 1 else 0)
      {
        ReadOrderElement(reader, lookup);
        more := reader.ReadNextStartElement();
      }
      AddGenericUnsortedGroup();
    }

    /** One child element of `<Order>`, dispatched on its name as `read` does. */
    method ReadOrderElement(reader: XmlReader, lookup: TemplateLookup)
      requires reader.Valid() && reader.AtStart()
      modifies this, reader
      ensures reader.Valid()
      ensures (State(), reader.pos) == OrderStep(reader.tokens, old(reader.pos), old(State()), lookup)
      ensures id == old(id) && customized == old(customized)
      ensures old(groups) <= groups
      ensures WellFormed(old(groups)) ==> WellFormed(groups)
      ensures forall k :: k in old(instrumentMap) ==> k in instrumentMap && instrumentMap[k] == old(instrumentMap[k])
    {
      if reader.Name() == "name" {
        name := reader.ReadElementText();
      } else if reader.Name() == "section" {
        ReadSection(reader);
      } else if reader.Name() == "instrument" {
        ReadInstrument(reader, lookup);
      } else if reader.Name() == "family" {
        ReadFamily(reader, TopLevelSection);
      } else if reader.Name() == "soloists" {
        ReadSoloists(reader, TopLevelSection);
      } else if reader.Name() == "unsorted" {
        ReadUnsorted(reader, TopLevelSection);
      } else {
        reader.SkipCurrentElement();
      }
    }

    /** A top-level `<family>`: a family group without brackets or bar line span. */
    method ReadFamily(reader: XmlReader, sectionId: string)
      requires reader.Valid() && reader.AtStart()
      modifies this, reader
      ensures reader.Valid() && reader.pos == ElementEnd(reader.tokens, old(reader.pos))
      ensures id == old(id) && name == old(name) && customized == old(customized)
      ensures instrumentMap == old(instrumentMap)
      ensures groups == old(groups)
                        + [ScoreGroup(ElementText(reader.tokens, old(reader.pos)), sectionId, None, false, false, false,
                                      false)]
      ensures WellFormed(old(groups)) ==> WellFormed(groups)
    {
      var family := reader.ReadElementText();
      Push(ScoreGroup(family, sectionId, None, false, false, false, false));
    }

    /** A top-level `<unsorted>`: a new unsorted group unless one with that key exists. */
    method ReadUnsorted(reader: XmlReader, sectionId: string)
      requires reader.Valid() && reader.AtStart()
      modifies this, reader
      ensures reader.Valid() && reader.pos == ElementEnd(reader.tokens, old(reader.pos))
      ensures id == old(id) && name == old(name) && customized == old(customized)
      ensures instrumentMap == old(instrumentMap)
      ensures groups == if Contains(old(groups), UnsortedId, old(reader.AttributeOr("group", ""))) then old(groups)
                        else old(groups) + [NewUnsortedGroup(old(reader.AttributeOr("group", "")), sectionId)]
      ensures WellFormed(old(groups)) ==> WellFormed(groups)
    {
      var group := reader.AttributeOr("group", "");
      var has := HasGroup(UnsortedId, group);
      if !has {
        Push(NewUnsortedGroup(group, sectionId));
      }
      reader.SkipCurrentElement();
    }

    /** The end of `read`: the generic unsorted group, in the order's own section, unless there is one. */
    method AddGenericUnsortedGroup()
      modifies this
      ensures id == old(id) && name == old(name) && customized == old(customized)
      ensures instrumentMap == old(instrumentMap)
      ensures groups == WithGenericGroup(old(groups), id)
      ensures Contains(groups, UnsortedId, "")
      ensures WellFormed(old(groups)) ==> WellFormed(groups)
    {
      var group := "";
      var has := HasGroup(UnsortedId, group);
      if !has {
        Push(NewUnsortedGroup(group, id));
        assert Holds(Keyed(UnsortedId, ""), groups[|groups| - 1]);
      }
    }

    /** `updateInstruments(score)`, over the instrument ids of the score's parts. */
    method UpdateInstruments(instrumentIds: seq<string>, lookup: TemplateLookup)
      modifies this
      ensures id == old(id) && name == old(name) && customized == old(customized) && groups == old(groups)
      ensures instrumentMap == WithFamilies(old(instrumentMap), instrumentIds, lookup)
    {
      for i := 0 to |instrumentIds|
        invariant id == old(id) && name == old(name) && customized == old(customized) && groups == old(groups)
        invariant instrumentMap == WithFamilies(old(instrumentMap), instrumentIds[..i], lookup)
      {
        assert instrumentIds[..i + 1][..i] == instrumentIds[..i];
        var ii := lookup(instrumentIds[i]);
        if ii.instrTemplate.None? || ii.instrTemplate.value.family.None? {
          continue;
        }
        var family := ii.instrTemplate.value.family.value;
        instrumentMap := InsertIfAbsent(instrumentMap, ii.instrTemplate.value.id,
          InstrumentOverwrite(family.id, family.name));
      }
      assert instrumentIds[..|instrumentIds|] == instrumentIds;
    }

    // -------------------------------------------------------------------------
    // Writing

    /** `write(xml)`: see OrderEvents for the document and WriteBalanced for its shape. */
    method Write(xml: XmlWriter)
      modifies xml
      ensures !IsValid() ==> xml.events == old(xml.events)
      ensures IsValid() ==>
                exists ks :: IsKeyOrder(ks, instrumentMap)
                  && xml.events == old(xml.events) + OrderEvents(id, name, instrumentMap, ks, groups)
    {
      if !IsValid() {
        return;
      }
      xml.StartObject(OrderHeader(id));
      xml.Tag("name", name);
      var ks := AscendingKeys(instrumentMap);
      WriteInstruments(xml, instrumentMap, ks);
      WriteGroups(xml, groups);
      xml.EndObject();
      OrderEventsAssembled(old(xml.events), id, name, instrumentMap, ks, groups);
    }

    /** The loop over the instrument map: one `instrument` object per key, in the order of `ks`. */
    static method WriteInstruments(xml: XmlWriter, m: map<string, InstrumentOverwrite>, ks: seq<string>)
      requires forall k :: k in ks ==> k in m
      modifies xml
      ensures xml.events == old(xml.events) + InstrumentEvents(m, ks)
    {
      for j := 0 to |ks|
        invariant xml.events == old(xml.events) + InstrumentEvents(m, ks[..j])
      {
        var k := ks[j];
        assert ks[..j + 1][..j] == ks[..j];
        xml.StartObject("instrument id=\"" + k + "\"");
        xml.Tag("family id=\"" + m[k].id + "\"", m[k].name);
        xml.EndObject();
      }
      assert ks[..|ks|] == ks;
    }

    /** The loop over the groups, with the section objects around them. */
    static method WriteGroups(xml: XmlWriter, groups: seq<ScoreGroup>)
      modifies xml
      ensures xml.events == old(xml.events) + GroupEvents(groups, "")
    {
      var section := "";
      for i := 0 to |groups|
        invariant xml.events + GroupEvents(groups[i..], section) == old(xml.events) + GroupEvents(groups, "")
      {
        var sg := groups[i];
        GroupEventsFrom(groups, i, section);
        ghost var before := xml.events;
        WriteGroup(xml, sg, section);
        AppendAssociative(before, SectionSwitch(sg, section) + [GroupEntry(sg)],
          GroupEvents(groups[i + 1..], sg.section));
        section := sg.section;
      }
      assert groups[|groups|..] == [];
      if section != "" {
        xml.EndObject();
      }
    }

    /** One group: the section switch it needs, then its entry. */
    static method WriteGroup(xml: XmlWriter, sg: ScoreGroup, section: string)
      modifies xml
      ensures xml.events == old(xml.events) + (SectionSwitch(sg, section) + [GroupEntry(sg)])
    {
      WriteSectionSwitch(xml, sg, section);
      WriteGroupEntry(xml, sg);
    }

    /** Closes the open section and opens that of `sg`, when they differ. */
    static method WriteSectionSwitch(xml: XmlWriter, sg: ScoreGroup, section: string)
      modifies xml
      ensures xml.events == old(xml.events) + SectionSwitch(sg, section)
    {
      if sg.section != section {
        if section != "" {
          xml.EndObject();
        }
        if sg.section != "" {
          xml.StartObject(SectionHeader(sg));
        }
      }
    }

    /** The one entry of a group. */
    static method WriteGroupEntry(xml: XmlWriter, sg: ScoreGroup)
      modifies xml
      ensures xml.events == old(xml.events) + [GroupEntry(sg)]
    {
      if sg.family == SoloistsId {
        xml.TagE("soloists");
      } else if sg.unsorted.None? {
        xml.Tag("family", sg.family);
      } else if sg.unsorted.value == "" {
        xml.TagE("unsorted");
      } else {
        xml.TagE("unsorted group=\"" + sg.unsorted.value + "\"");
      }
    }
  }
}
