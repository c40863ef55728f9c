/**
 * What `ScoreOrder::write` emits, as a function of the order, and the
 * properties of that output: nothing for an order without an id, every object
 * it opens is closed, and every group is written as exactly one entry whose
 * kind follows from its family and its unsorted key.
 *
 * The instrument map is a `std::map`, iterated in ascending key order; the
 * order used here is the lexicographic order on characters.
 */
module ScoreOrderWrite {
  import opened Wrappers
  import opened Xml
  import opened ScoreGroups

  // ---------------------------------------------------------------------------
  // Ascending order of the instrument map's keys

  predicate StrLess(a: string, b: string)
    decreases |a|
  {
    |b| > 0 && (|a| == 0 || a[0] < b[0] || (a[0] == b[0] && StrLess(a[1..], b[1..])))
  }

  lemma {:induction false} StrLessIrreflexive(a: string)
    ensures !StrLess(a, a)
    decreases |a|
  {
    if |a| > 0 {
      StrLessIrreflexive(a[1..]);
    }
  }

  lemma {:induction false} StrLessTransitive(a: string, b: string, c: string)
    requires StrLess(a, b) && StrLess(b, c)
    ensures StrLess(a, c)
    decreases |a|
  {
    if |a| > 0 && a[0] == b[0] && b[0] == c[0] {
      StrLessTransitive(a[1..], b[1..], c[1..]);
    }
  }

  lemma {:induction false} StrLessTotal(a: string, b: string)
    ensures a == b || StrLess(a, b) || StrLess(b, a)
    decreases |a|
  {
    if |a| > 0 && |b| > 0 && a[0] == b[0] {
      StrLessTotal(a[1..], b[1..]);
      if a[1..] == b[1..] {
        assert a == [a[0]] + a[1..] && b == [b[0]] + b[1..];
      }
    }
  }

  predicate Ascending(ks: seq<string>)
  {
    forall i, j :: 0 <= i < j < |ks| ==> StrLess(ks[i], ks[j])
  }

  function InsertKey(ks: seq<string>, k: string): seq<string>
    decreases |ks|
  {
    if ks == [] then [k]
    else if StrLess(k, ks[0]) then [k] + ks
    else [ks[0]] + InsertKey(ks[1..], k)
  }

  /** Inserting a new key into an ascending list keeps it ascending and adds exactly that key. */
  lemma {:induction false} InsertKeyAscending(ks: seq<string>, k: string)
    requires Ascending(ks) && k !in ks
    ensures Ascending(InsertKey(ks, k))
    ensures forall x :: x in InsertKey(ks, k) <==> x in ks || x == k
    decreases |ks|
  {
    if ks == [] {
    } else if StrLess(k, ks[0]) {
      var r := [k] + ks;
      forall i, j | 0 <= i < j < |r| ensures StrLess(r[i], r[j]) {
        if i == 0 && j > 1 {
          StrLessTransitive(k, ks[0], ks[j - 1]);
        }
      }
    } else {
      StrLessTotal(k, ks[0]);
      InsertKeyAscending(ks[1..], k);
      var rest := InsertKey(ks[1..], k);
      var r := [ks[0]] + rest;
      forall j | 0 < j < |r| ensures StrLess(ks[0], r[j]) {
        assert r[j] in rest;
        if r[j] != k {
          var m :| 0 <= m < |ks[1..]| && ks[1..][m] == r[j];
        }
      }
    }
  }

  /** `ks` lists the keys of `m` in ascending order, each once: the iteration order of a `std::map`. */
  ghost predicate IsKeyOrder<V>(ks: seq<string>, m: map<string, V>)
  {
    Ascending(ks) && forall k :: k in ks <==> k in m
  }

  method AscendingKeys<V>(m: map<string, V>) returns (ks: seq<string>)
    ensures IsKeyOrder(ks, m)
  {
    ks := [];
    var rest := m.Keys;
    while rest != {}
      invariant rest <= m.Keys
      invariant Ascending(ks)
      invariant forall k :: k in ks <==> k in m && k !in rest
      decreases |rest|
    {
      var k :| k in rest;
      InsertKeyAscending(ks, k);
      ks := InsertKey(ks, k);
      rest := rest - {k};
    }
  }

  // ---------------------------------------------------------------------------
  // The output

  function BoolText(b: bool): string
  {
    if b then "true" else "false"
  }

  function OrderHeader(id: string): string
  {
    "Order id=\"" + id + "\""
  }

  function SectionHeader(g: ScoreGroup): string
  {
    "section id=\"" + g.section + "\" brackets=\"" + BoolText(g.bracket)
    + "\" showSystemMarkings=\"" + BoolText(g.showSystemMarkings)
    + "\" barLineSpan=\"" + BoolText(g.barLineSpan)
    + "\" thinBrackets=\"" + BoolText(g.thinBracket) + "\""
  }

  /** The one entry written for a group. */
  function GroupEntry(g: ScoreGroup): (e: XmlEvent)
    ensures e.Element? || e.Empty?
    ensures e == Empty("soloists") <==> g.family == SoloistsId
    ensures e.Element? <==> g.family != SoloistsId && g.unsorted.None?
    ensures e.Element? ==> e == Element("family", g.family)
    ensures e == Empty("unsorted") <==> g.family != SoloistsId && g.unsorted == Some("")
    ensures e.Empty? && e != Empty("soloists") && e != Empty("unsorted") <==>
            g.family != SoloistsId && g.unsorted.Some? && g.unsorted.value != ""
  {
    if g.family == SoloistsId then Empty("soloists")
    else if g.unsorted.None? then Element("family", g.family)
    else if g.unsorted.value == "" then Empty("unsorted")
    else Empty("unsorted group=\"" + g.unsorted.value + "\"")
  }

  /** One `instrument` object per key of the map, in the order of `ks`. */
  function InstrumentEvents(m: map<string, InstrumentOverwrite>, ks: seq<string>): seq<XmlEvent>
    requires forall k :: k in ks ==> k in m
  {
    if ks == [] then []
    else
      var k := ks[|ks| - 1];
      InstrumentEvents(m, ks[..|ks| - 1])
      + [Open("instrument id=\"" + k + "\""), Element("family id=\"" + m[k].id + "\"", m[k].name), Close]
  }

  /**
   * The groups, from a point where the open section is `section` ("" for none):
   * a section object is closed and another opened whenever the section changes,
   * and the last one is closed at the end.
   */
  function GroupEvents(gs: seq<ScoreGroup>, section: string): seq<XmlEvent>
    decreases |gs|
  {
    if gs == [] then
      (if section != "" then [Close] else [])
    else
      var g := gs[0];
      SectionSwitch(g, section) + [GroupEntry(g)] + GroupEvents(gs[1..], g.section)
  }

  /** The group events from position `i` on: the switch into the section of `gs[i]`, its entry, the rest. */
  lemma GroupEventsFrom(gs: seq<ScoreGroup>, i: nat, section: string)
    requires i < |gs|
    ensures GroupEvents(gs[i..], section) ==
            (SectionSwitch(gs[i], section) + [GroupEntry(gs[i])]) + GroupEvents(gs[i + 1..], gs[i].section)
  {
    assert gs[i..][1..] == gs[i + 1..];
  }

  lemma AppendAssociative(a: seq<XmlEvent>, b: seq<XmlEvent>, c: seq<XmlEvent>)
    ensures (a + b) + c == a + (b + c)
  {
  }

  /** Everything `write` emits for an order with an id. */
  function OrderEvents(id: string, name: string, m: map<string, InstrumentOverwrite>, ks: seq<string>,
                       gs: seq<ScoreGroup>): seq<XmlEvent>
    requires forall k :: k in ks ==> k in m
  {
    [Open(OrderHeader(id))] + [Element("name", name)] + InstrumentEvents(m, ks) + GroupEvents(gs, "") + [Close]
  }

  /** The document assembled from its parts, in the order `write` emits them. */
  lemma OrderEventsAssembled(start: seq<XmlEvent>, id: string, name: string, m: map<string, InstrumentOverwrite>,
                             ks: seq<string>, gs: seq<ScoreGroup>)
    requires forall k :: k in ks ==> k in m
    ensures start + [Open(OrderHeader(id))] + [Element("name", name)] + InstrumentEvents(m, ks)
            + GroupEvents(gs, "") + [Close] == start + OrderEvents(id, name, m, ks, gs)
  {
    var open, title := [Open(OrderHeader(id))], [Element("name", name)];
    AppendAssociative(start, open, title);
    AppendAssociative(start, open + title, InstrumentEvents(m, ks));
    AppendAssociative(start, open + title + InstrumentEvents(m, ks), GroupEvents(gs, ""));
    AppendAssociative(start, open + title + InstrumentEvents(m, ks) + GroupEvents(gs, ""), [Close]);
  }

  // ---------------------------------------------------------------------------
  // Balance

  /** The nesting depth after `ev`, starting at depth `d`; None if a close has nothing to close. */
  function Run(ev: seq<XmlEvent>, d: nat): Option<nat>
    decreases |ev|
  {
    if ev == [] then Some(d)
    else
      match ev[0]
      case Open(_) => Run(ev[1..], d + 1)
      case Close => if d == 0 then None else Run(ev[1..], d - 1)
      case _ => Run(ev[1..], d)
  }

  /** Every object opened is closed, and nothing is closed that was not opened. */
  predicate Balanced(ev: seq<XmlEvent>)
  {
    Run(ev, 0) == Some(0)
  }

  lemma {:induction false} RunAppend(a: seq<XmlEvent>, b: seq<XmlEvent>, d: nat)
    ensures Run(a + b, d) == if Run(a, d).Some? then Run(b, Run(a, d).value) else None
    decreases |a|
  {
    if a == [] {
      assert a + b == b;
    } else {
      assert (a + b)[1..] == a[1..] + b;
      match a[0]
      case Open(_) => RunAppend(a[1..], b, d + 1);
      case Close => if d > 0 { RunAppend(a[1..], b, d - 1); }
      case Element(_, _) => RunAppend(a[1..], b, d);
      case Empty(_) => RunAppend(a[1..], b, d);
    }
  }

  /** The effect of one event on the depth. */
  lemma RunSingle(e: XmlEvent, d: nat)
    ensures Run([e], d) == match e
      case Open(_) => Some(d + 1)
      case Close => if d == 0 then None else Some(d - 1)
      case _ => Some(d)
  {
    assert [e][1..] == [];
  }

  function SectionDepth(section: string): nat
  {
    if section != "" then 1 else 0
  }

  lemma {:induction false} InstrumentEventsBalanced(m: map<string, InstrumentOverwrite>, ks: seq<string>, d: nat)
    requires forall k :: k in ks ==> k in m
    ensures Run(InstrumentEvents(m, ks), d) == Some(d)
    decreases |ks|
  {
    if ks != [] {
      var k := ks[|ks| - 1];
      var open := Open("instrument id=\"" + k + "\"");
      var family := Element("family id=\"" + m[k].id + "\"", m[k].name);
      var obj := [open, family, Close];
      assert obj == [open] + ([family] + [Close]);
      InstrumentEventsBalanced(m, ks[..|ks| - 1], d);
      RunAppend(InstrumentEvents(m, ks[..|ks| - 1]), obj, d);
      RunAppend([open], [family] + [Close], d);
      RunSingle(open, d);
      RunAppend([family], [Close], d + 1);
      RunSingle(family, d + 1);
      RunSingle(Close, d + 1);
    }
  }

  /** The events written when the section changes from `section` to that of `g`. */
  function SectionSwitch(g: ScoreGroup, section: string): seq<XmlEvent>
  {
    if g.section != section then
      (if section != "" then [Close] else []) + (if g.section != "" then [Open(SectionHeader(g))] else [])
    else []
  }

  lemma SectionSwitchDepth(g: ScoreGroup, section: string, base: nat)
    ensures Run(SectionSwitch(g, section), base + SectionDepth(section)) == Some(base + SectionDepth(g.section))
  {
    var d := base + SectionDepth(section);
    if g.section != section {
      var close: seq<XmlEvent> := if section != "" then [Close] else [];
      var open: seq<XmlEvent> := if g.section != "" then [Open(SectionHeader(g))] else [];
      RunAppend(close, open, d);
      RunSingle(Close, d);
      RunSingle(Open(SectionHeader(g)), base);
    }
  }

  /** The group events close the open section, if any, and leave the depth where it was. */
  lemma {:induction false} GroupEventsBalanced(gs: seq<ScoreGroup>, section: string, base: nat)
    ensures Run(GroupEvents(gs, section), base + SectionDepth(section)) == Some(base)
    decreases |gs|
  {
    if gs == [] {
      RunSingle(Close, base + 1);
    } else {
      var g := gs[0];
      var rest := GroupEvents(gs[1..], g.section);
      assert GroupEvents(gs, section) == SectionSwitch(g, section) + ([GroupEntry(g)] + rest);
      RunAppend(SectionSwitch(g, section), [GroupEntry(g)] + rest, base + SectionDepth(section));
      SectionSwitchDepth(g, section, base);
      RunAppend([GroupEntry(g)], rest, base + SectionDepth(g.section));
      RunSingle(GroupEntry(g), base + SectionDepth(g.section));
      GroupEventsBalanced(gs[1..], g.section, base);
    }
  }

  /** `write` produces a balanced document. */
  lemma WriteBalanced(id: string, name: string, m: map<string, InstrumentOverwrite>, ks: seq<string>,
                      gs: seq<ScoreGroup>)
    requires forall k :: k in ks ==> k in m
    ensures Balanced(OrderEvents(id, name, m, ks, gs))
  {
    {
      var open := Open(OrderHeader(id));
      var title := Element("name", name);
      var instruments := InstrumentEvents(m, ks);
      var groups := GroupEvents(gs, "");
      var ev := OrderEvents(id, name, m, ks, gs);
      assert ev == [open] + ([title] + (instruments + (groups + [Close])));
      RunAppend([open], [title] + (instruments + (groups + [Close])), 0);
      RunSingle(open, 0);
      RunAppend([title], instruments + (groups + [Close]), 1);
      RunSingle(title, 1);
      RunAppend(instruments, groups + [Close], 1);
      InstrumentEventsBalanced(m, ks, 1);
      RunAppend(groups, [Close], 1);
      GroupEventsBalanced(gs, "", 1);
      RunSingle(Close, 1);
    }
  }

  // ---------------------------------------------------------------------------
  // One entry per group

  /** The events other than opening and closing objects. */
  function Entries(ev: seq<XmlEvent>): seq<XmlEvent>
    decreases |ev|
  {
    if ev == [] then []
    else (if ev[0].Open? || ev[0].Close? then [] else [ev[0]]) + Entries(ev[1..])
  }

  function GroupEntries(gs: seq<ScoreGroup>): seq<XmlEvent>
    decreases |gs|
  {
    if gs == [] then [] else [GroupEntry(gs[0])] + GroupEntries(gs[1..])
  }

  lemma {:induction false} EntriesAppend(a: seq<XmlEvent>, b: seq<XmlEvent>)
    ensures Entries(a + b) == Entries(a) + Entries(b)
    decreases |a|
  {
    if a == [] {
      assert a + b == b;
    } else {
      assert (a + b)[1..] == a[1..] + b;
      EntriesAppend(a[1..], b);
    }
  }

  lemma EntriesSingle(e: XmlEvent)
    ensures Entries([e]) == if e.Open? || e.Close? then [] else [e]
  {
    assert [e][1..] == [];
  }

  /** Apart from section objects, the group part is exactly one entry per group, in order. */
  lemma {:induction false} GroupEventsEntries(gs: seq<ScoreGroup>, section: string)
    ensures Entries(GroupEvents(gs, section)) == GroupEntries(gs)
    decreases |gs|
  {
    if gs == [] {
      EntriesSingle(Close);
    } else {
      var g := gs[0];
      var rest := GroupEvents(gs[1..], g.section);
      assert Entries(SectionSwitch(g, section)) == [] by {
        if g.section != section {
          var close: seq<XmlEvent> := if section != "" then [Close] else [];
          var open: seq<XmlEvent> := if g.section != "" then [Open(SectionHeader(g))] else [];
          EntriesAppend(close, open);
          EntriesSingle(Close);
          EntriesSingle(Open(SectionHeader(g)));
        }
      }
      assert GroupEvents(gs, section) == SectionSwitch(g, section) + ([GroupEntry(g)] + rest);
      EntriesAppend(SectionSwitch(g, section), [GroupEntry(g)] + rest);
      EntriesAppend([GroupEntry(g)], rest);
      EntriesSingle(GroupEntry(g));
      GroupEventsEntries(gs[1..], g.section);
    }
  }
}
