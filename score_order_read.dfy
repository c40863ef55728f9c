/**
 * What `ScoreOrder::read` and its helpers read from `orders.xml`, stated over
 * the reader's token stream.
 *
 * The section and instrument readers are folds over the element's children
 * (`Children` of Xml); the order reader is a fold over the positions the
 * cursor actually visits, because a duplicate `<unsorted>` makes
 * `readSection` return with the cursor still inside the section.
 */
module ScoreOrderRead {
  import opened Wrappers
  import opened Xml
  import opened ScoreGroups

  // ---------------------------------------------------------------------------
  // readBoolAttribute

  function LowerChar(c: char): char
  {
    if 'A' <= c <= 'Z' then (c as int + 32) as char else c
  }

  /** `QString::toLower`, on the ASCII letters. */
  function ToLower(s: string): (r: string)
    ensures |r| == |s|
    ensures forall i :: 0 <= i < |s| ==> r[i] == LowerChar(s[i])
  {
    if s == [] then [] else [LowerChar(s[0])] + ToLower(s[1..])
  }

  predicate EqualsIgnoringCase(a: string, b: string)
  {
    |a| == |b| && forall i :: 0 <= i < |a| ==> LowerChar(a[i]) == LowerChar(b[i])
  }

  /**
   * `readBoolAttribute(reader, attrName, defvalue)`, given the attribute's
   * value (None when the element does not have it).
   */
  function ReadBoolAttribute(value: Option<string>, def: bool): (r: bool)
    ensures value.None? ==> r == def
    ensures value.Some? && EqualsIgnoringCase(value.value, "false") ==> !r
    ensures value.Some? && EqualsIgnoringCase(value.value, "true") ==> r
    ensures value.Some? && !EqualsIgnoringCase(value.value, "false") && !EqualsIgnoringCase(value.value, "true")
            ==> r == def
  {
    if value.None? then def
    else
      var attr := ToLower(value.value);
      if attr == "false" then false
      else if attr == "true" then true
      else def
  }

  /** `std::map::insert`: adds the entry only when the key is not there yet. */
  function InsertIfAbsent(m: map<string, InstrumentOverwrite>, k: string, v: InstrumentOverwrite)
    : map<string, InstrumentOverwrite>
  {
    if k in m then m else m[k := v]
  }

  // ---------------------------------------------------------------------------
  // readSection

  /** The attributes `readSection` takes from its `<section>` tag. */
  datatype SectionAttrs = SectionAttrs(id: string, showSystemMarkings: bool, barLineSpan: bool, thinBrackets: bool)

  function SectionAttrsAt(tokens: seq<Token>, p: nat): SectionAttrs
  {
    SectionAttrs(AttrAt(tokens, p, "id").GetOr(""),
      ReadBoolAttribute(AttrAt(tokens, p, "showSystemMarkings"), false),
      ReadBoolAttribute(AttrAt(tokens, p, "barLineSpan"), true),
      ReadBoolAttribute(AttrAt(tokens, p, "thinBrackets"), true))
  }

  /** The key of an `<unsorted>` tag: its `group` attribute, "" when absent. */
  function UnsortedKey(tokens: seq<Token>, c: nat): string
  {
    AttrAt(tokens, c, "group").GetOr("")
  }

  /**
   * The group a child of a section contributes: a `<family>` its bracketed
   * family group with the section's flags, an `<unsorted>` its bracketed keyed
   * group with its own flags, anything else nothing.
   */
  function SectionChildGroups(tokens: seq<Token>, c: nat, s: SectionAttrs): seq<ScoreGroup>
  {
    if NameAt(tokens, c) == "family" then
      [ScoreGroup(ElementText(tokens, c), s.id, None, true, s.showSystemMarkings, s.barLineSpan, s.thinBrackets)]
    else if NameAt(tokens, c) == "unsorted" then
      [ScoreGroup(UnsortedId, s.id, Some(UnsortedKey(tokens, c)), true,
        ReadBoolAttribute(AttrAt(tokens, c, "showSystemMarkings"), false),
        ReadBoolAttribute(AttrAt(tokens, c, "barLineSpan"), true),
        ReadBoolAttribute(AttrAt(tokens, c, "thinBrackets"), true))]
    else []
  }

  /** The groups of the children `cs`, in order, as if none were a duplicate. */
  function SectionGroups(tokens: seq<Token>, cs: seq<nat>, s: SectionAttrs): seq<ScoreGroup>
  {
    if cs == [] then [] else SectionChildGroups(tokens, cs[0], s) + SectionGroups(tokens, cs[1..], s)
  }

  /** An `<unsorted>` child whose key `gs` already holds. */
  predicate DuplicateAt(tokens: seq<Token>, c: nat, gs: seq<ScoreGroup>)
  {
    NameAt(tokens, c) == "unsorted" && Contains(gs, UnsortedId, UnsortedKey(tokens, c))
  }

  /** The groups after reading some children of a section, and the duplicate it stopped at, if any. */
  datatype SectionResult = SectionResult(groups: seq<ScoreGroup>, stop: Option<nat>)

  /** The loop of `readSection` over the children `cs`, from the group list `gs`. */
  function ReadSectionChildren(tokens: seq<Token>, cs: seq<nat>, s: SectionAttrs, gs: seq<ScoreGroup>)
    : (r: SectionResult)
    ensures r.stop.Some? ==> r.stop.value in cs
  {
    if cs == [] then SectionResult(gs, None)
    else if DuplicateAt(tokens, cs[0], gs) then SectionResult(gs, Some(cs[0]))
    else ReadSectionChildren(tokens, cs[1..], s, gs + SectionChildGroups(tokens, cs[0], s))
  }

  /**
   * `readSection` on the `<section>` at `p`: the group list afterwards, and
   * where the cursor is left: at the end of the duplicate it stopped at, or
   * at the section's end tag.
   */
  function SectionStep(tokens: seq<Token>, p: nat, gs: seq<ScoreGroup>): (r: (seq<ScoreGroup>, nat))
    requires p < |tokens|
    ensures p < r.1 <= |tokens|
  {
    var cs := Children(tokens, p);
    var res := ReadSectionChildren(tokens, cs, SectionAttrsAt(tokens, p), gs);
    (res.groups, if res.stop.Some? then ElementEnd(tokens, res.stop.value) else ChildrenEnd(tokens, p))
  }

  lemma SectionGroupsCons(tokens: seq<Token>, cs: seq<nat>, s: SectionAttrs, k: nat)
    requires 0 < k <= |cs|
    ensures SectionGroups(tokens, cs[..k], s)
            == SectionChildGroups(tokens, cs[0], s) + SectionGroups(tokens, cs[1..][..k - 1], s)
  {
    assert cs[..k][1..] == cs[1..][..k - 1];
  }

  /** None of the first `k` children is a duplicate of the groups read before it. */
  ghost predicate NoDuplicateBefore(tokens: seq<Token>, cs: seq<nat>, s: SectionAttrs, gs: seq<ScoreGroup>, k: nat)
    requires k <= |cs|
  {
    forall j :: 0 <= j < k ==> !DuplicateAt(tokens, cs[j], gs + SectionGroups(tokens, cs[..j], s))
  }

  /** Moving the first child, which is not a duplicate, into the groups already read. */
  lemma NoDuplicateBeforeCons(tokens: seq<Token>, cs: seq<nat>, s: SectionAttrs, gs: seq<ScoreGroup>, k: nat)
    requires 0 < k <= |cs| && !DuplicateAt(tokens, cs[0], gs)
    ensures NoDuplicateBefore(tokens, cs, s, gs, k)
            <==> NoDuplicateBefore(tokens, cs[1..], s, gs + SectionChildGroups(tokens, cs[0], s), k - 1)
  {
    var gs' := gs + SectionChildGroups(tokens, cs[0], s);
    var rest := cs[1..];
    assert cs[..0] == [];
    forall j | 0 < j <= k
      ensures gs + SectionGroups(tokens, cs[..j], s) == gs' + SectionGroups(tokens, rest[..j - 1], s)
    {
      SectionGroupsCons(tokens, cs, s, j);
    }
  }

  /** The position among `cs` of the first child that is a duplicate when it is reached; `|cs|` if none is. */
  function FirstDuplicate(tokens: seq<Token>, cs: seq<nat>, s: SectionAttrs, gs: seq<ScoreGroup>): (k: nat)
    ensures k <= |cs|
  {
    if cs == [] || DuplicateAt(tokens, cs[0], gs) then 0
    else 1 + FirstDuplicate(tokens, cs[1..], s, gs + SectionChildGroups(tokens, cs[0], s))
  }

  /** No child before the first duplicate is a duplicate when it is reached. */
  lemma {:induction false} FirstDuplicateFresh(tokens: seq<Token>, cs: seq<nat>, s: SectionAttrs, gs: seq<ScoreGroup>)
    ensures NoDuplicateBefore(tokens, cs, s, gs, FirstDuplicate(tokens, cs, s, gs))
    decreases |cs|
  {
    if cs != [] && !DuplicateAt(tokens, cs[0], gs) {
      var gs' := gs + SectionChildGroups(tokens, cs[0], s);
      FirstDuplicateFresh(tokens, cs[1..], s, gs');
      NoDuplicateBeforeCons(tokens, cs, s, gs, FirstDuplicate(tokens, cs, s, gs));
    }
  }

  /** The section loop stops exactly at the first duplicate, and runs to the end when there is none. */
  lemma {:induction false} ReadSectionChildrenStop(tokens: seq<Token>, cs: seq<nat>, s: SectionAttrs,
                                                   gs: seq<ScoreGroup>)
    ensures var k := FirstDuplicate(tokens, cs, s, gs);
            ReadSectionChildren(tokens, cs, s, gs).stop == if k < |cs| then Some(cs[k]) else None
    decreases |cs|
  {
    if cs != [] && !DuplicateAt(tokens, cs[0], gs) {
      ReadSectionChildrenStop(tokens, cs[1..], s, gs + SectionChildGroups(tokens, cs[0], s));
    }
  }

  /** The section loop appends the groups of the children before the first duplicate, in order. */
  lemma {:induction false} ReadSectionChildrenGroups(tokens: seq<Token>, cs: seq<nat>, s: SectionAttrs,
                                                     gs: seq<ScoreGroup>)
    ensures var k := FirstDuplicate(tokens, cs, s, gs);
            ReadSectionChildren(tokens, cs, s, gs).groups == gs + SectionGroups(tokens, cs[..k], s)
    decreases |cs|
  {
    if cs == [] || DuplicateAt(tokens, cs[0], gs) {
      assert cs[..0] == [];
      assert gs + SectionGroups(tokens, cs[..0], s) == gs;
    } else {
      var rest := cs[1..];
      var gs' := gs + SectionChildGroups(tokens, cs[0], s);
      var k' := FirstDuplicate(tokens, rest, s, gs');
      ReadSectionChildrenGroups(tokens, rest, s, gs');
      SectionGroupsShift(tokens, cs, s, gs, k');
    }
  }

  /** The child the section loop stops at is an `<unsorted>` whose key the groups read before it already hold. */
  lemma {:induction false} FirstDuplicateIsDuplicate(tokens: seq<Token>, cs: seq<nat>, s: SectionAttrs,
                                                     gs: seq<ScoreGroup>)
    ensures var k := FirstDuplicate(tokens, cs, s, gs);
            k < |cs| ==> DuplicateAt(tokens, cs[k], gs + SectionGroups(tokens, cs[..k], s))
    decreases |cs|
  {
    if cs == [] || DuplicateAt(tokens, cs[0], gs) {
      assert cs[..0] == [];
      assert gs + SectionGroups(tokens, cs[..0], s) == gs;
    } else {
      var rest := cs[1..];
      var gs' := gs + SectionChildGroups(tokens, cs[0], s);
      var k' := FirstDuplicate(tokens, rest, s, gs');
      FirstDuplicateIsDuplicate(tokens, rest, s, gs');
      if k' < |rest| {
        SectionGroupsShift(tokens, cs, s, gs, k');
      }
    }
  }

  /** The groups read before child `k + 1` of `cs` are those read before child `k` of `cs[1..]`, once `cs[0]`'s are in. */
  lemma SectionGroupsShift(tokens: seq<Token>, cs: seq<nat>, s: SectionAttrs, gs: seq<ScoreGroup>, k: nat)
    requires k < |cs|
    ensures gs + SectionGroups(tokens, cs[..k + 1], s)
            == gs + SectionChildGroups(tokens, cs[0], s) + SectionGroups(tokens, cs[1..][..k], s)
    ensures k + 1 < |cs| ==> cs[k + 1] == cs[1..][k]
  {
    SectionGroupsCons(tokens, cs, s, k + 1);
  }

  // ---------------------------------------------------------------------------
  // readInstrument

  /** The override a `<family id=F>text</family>` child of `<instrument>` stands for. */
  function FamilyOverride(tokens: seq<Token>, c: nat): InstrumentOverwrite
  {
    InstrumentOverwrite(AttrAt(tokens, c, "id").GetOr(""), ElementText(tokens, c))
  }

  /** The loop of `readInstrument` over the children `cs`: each `<family>` child is inserted under `instrumentId`. */
  function FamilyOverrides(tokens: seq<Token>, cs: seq<nat>, instrumentId: string, m: map<string, InstrumentOverwrite>)
    : map<string, InstrumentOverwrite>
  {
    if cs == [] then m
    else
      var m' := if NameAt(tokens, cs[0]) == "family" then InsertIfAbsent(m, instrumentId, FamilyOverride(tokens, cs[0]))
                else m;
      FamilyOverrides(tokens, cs[1..], instrumentId, m')
  }

  /** None of the children before `k` is a `<family>`. */
  predicate NoFamilyBefore(tokens: seq<Token>, cs: seq<nat>, k: int)
    requires k <= |cs|
  {
    forall j :: 0 <= j < k ==> NameAt(tokens, cs[j]) != "family"
  }

  /**
   * An instrument already in the map keeps its entry; otherwise the first
   * `<family>` child supplies it, later ones are ignored, and without any the
   * map is unchanged.
   */
  lemma {:induction false} FamilyOverridesFirst(tokens: seq<Token>, cs: seq<nat>, instrumentId: string,
                                                m: map<string, InstrumentOverwrite>)
    ensures instrumentId in m ==> FamilyOverrides(tokens, cs, instrumentId, m) == m
    ensures NoFamilyBefore(tokens, cs, |cs|) ==> FamilyOverrides(tokens, cs, instrumentId, m) == m
    ensures forall k :: 0 <= k < |cs| && instrumentId !in m && NameAt(tokens, cs[k]) == "family"
                        && NoFamilyBefore(tokens, cs, k) ==>
              FamilyOverrides(tokens, cs, instrumentId, m) == m[instrumentId := FamilyOverride(tokens, cs[k])]
    decreases |cs|
  {
    if cs == [] {
      return;
    }
    var rest := cs[1..];
    var isFamily := NameAt(tokens, cs[0]) == "family";
    var m' := if isFamily then InsertIfAbsent(m, instrumentId, FamilyOverride(tokens, cs[0])) else m;
    assert FamilyOverrides(tokens, cs, instrumentId, m) == FamilyOverrides(tokens, rest, instrumentId, m');
    FamilyOverridesFirst(tokens, rest, instrumentId, m');
    if NoFamilyBefore(tokens, cs, |cs|) {
      assert !isFamily;
      assert NoFamilyBefore(tokens, rest, |rest|) by {
        forall j | 0 <= j < |rest| ensures NameAt(tokens, rest[j]) != "family" {
          assert rest[j] == cs[j + 1];
        }
      }
    }
    forall k | 0 <= k < |cs| && instrumentId !in m && NameAt(tokens, cs[k]) == "family" && NoFamilyBefore(tokens, cs, k)
      ensures FamilyOverrides(tokens, cs, instrumentId, m) == m[instrumentId := FamilyOverride(tokens, cs[k])]
    {
      if k > 0 {
        assert !isFamily;
        assert rest[k - 1] == cs[k];
        assert NoFamilyBefore(tokens, rest, k - 1) by {
          forall j | 0 <= j < k - 1 ensures NameAt(tokens, rest[j]) != "family" {
            assert rest[j] == cs[j + 1];
          }
        }
      }
    }
  }

  /**
   * `readInstrument` on the `<instrument>` at `p`: the map afterwards and where
   * the cursor is left. An instrument without a template is skipped whole.
   */
  function InstrumentStep(tokens: seq<Token>, p: nat, m: map<string, InstrumentOverwrite>, lookup: TemplateLookup)
    : (r: (map<string, InstrumentOverwrite>, nat))
    requires p < |tokens|
    ensures p < r.1 <= |tokens|
  {
    var instrumentId := AttrAt(tokens, p, "id").GetOr("");
    if lookup(instrumentId).instrTemplate.None? then (m, ElementEnd(tokens, p))
    else (FamilyOverrides(tokens, Children(tokens, p), instrumentId, m), ChildrenEnd(tokens, p))
  }

  // ---------------------------------------------------------------------------
  // read

  /** The fields of an order that `read` fills in while it reads the children of `<Order>`. */
  datatype OrderState = OrderState(name: string, groups: seq<ScoreGroup>,
                                   instrumentMap: map<string, InstrumentOverwrite>)

  /** The section of the groups `read` makes outside any `<section>`. */
  const TopLevelSection: string := ""

  /**
   * One iteration of `read`'s loop on the start tag at `q`, dispatched on its
   * name: the state afterwards and where the cursor is left.
   */
  function OrderStep(tokens: seq<Token>, q: nat, st: OrderState, lookup: TemplateLookup): (r: (OrderState, nat))
    requires q < |tokens|
    ensures q < r.1 <= |tokens|
  {
    var tag := NameAt(tokens, q);
    if tag == "name" then
      (st.(name := ElementText(tokens, q)), ElementEnd(tokens, q))
    else if tag == "section" then
      var (gs, e) := SectionStep(tokens, q, st.groups);
      (st.(groups := gs), e)
    else if tag == "instrument" then
      var (m, e) := InstrumentStep(tokens, q, st.instrumentMap, lookup);
      (st.(instrumentMap := m), e)
    else if tag == "family" then
      (st.(groups := st.groups + [ScoreGroup(ElementText(tokens, q), TopLevelSection, None, false, false, false, false)]),
       ElementEnd(tokens, q))
    else if tag == "soloists" then
      (st.(groups := if Contains(st.groups, SoloistsId, "") then st.groups
                     else st.groups + [SoloistsGroup(TopLevelSection)]),
       ElementEnd(tokens, q))
    else if tag == "unsorted" then
      var key := UnsortedKey(tokens, q);
      (st.(groups := if Contains(st.groups, UnsortedId, key) then st.groups
                     else st.groups + [NewUnsortedGroup(key, TopLevelSection)]),
       ElementEnd(tokens, q))
    else
      (st, ElementEnd(tokens, q))
  }

  /** `read`'s loop from the cursor position `q` on: one step per start tag it stops at. */
  function ReadOrderFrom(tokens: seq<Token>, q: nat, st: OrderState, lookup: TemplateLookup): OrderState
    requires q <= |tokens|
    decreases |tokens| - q
  {
    if q < |tokens| && tokens[q].StartElement? then
      var (st', e) := OrderStep(tokens, q, st, lookup);
      ReadOrderFrom(tokens, NextTag(tokens, e), st', lookup)
    else st
  }

  /** The end of `read`: the generic unsorted group, in the order's own section, unless there is one. */
  function WithGenericGroup(gs: seq<ScoreGroup>, orderId: string): (r: seq<ScoreGroup>)
    ensures Contains(r, UnsortedId, "")
    ensures gs <= r && |r| <= |gs| + 1
  {
    if Contains(gs, UnsortedId, "") then gs
    else
      var r := gs + [NewUnsortedGroup("", orderId)];
      assert Holds(Keyed(UnsortedId, ""), r[|gs|]);
      r
  }
}
