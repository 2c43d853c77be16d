/** The portfolio generator page: a record of section switches (all on at
    first), a generate button gated on at least one switch being on, and a
    preview listing the first four switched-on sections. */
module Portfolio {
  import opened Seqs

  datatype Section = Section(id: string, caption: string, isDefault: bool)

  const Sections: seq<Section> := [
    Section("about", "About Me", true),
    Section("skills", "Skills", true),
    Section("experience", "Work Experience", true),
    Section("projects", "Projects", true),
    Section("education", "Education", true),
    Section("contact", "Contact", true)
  ]

  const PreviewLimit := 4

  /** One key of the `selectedSections` record. */
  datatype Flag = Flag(key: string, on: bool)

  /** A JavaScript object used as a string-keyed record: its entries in
      insertion order (the order `Object.entries` reports for such keys). */
  type Record = seq<Flag>

  function Keys(r: Record): (ks: seq<string>)
    ensures |ks| == |r| && forall i :: 0 <= i < |r| ==> ks[i] == r[i].key
  {
    if r == [] then [] else [r[0].key] + Keys(r[1..])
  }

  ghost predicate DistinctKeys(r: Record) {
    forall i, j :: 0 <= i < j < |r| ==> r[i].key != r[j].key
  }

  /** `record[key]` read as a boolean: an absent key reads as false. */
  function Lookup(r: Record, key: string): (b: bool)
    ensures b ==> key in Keys(r)
  {
    if r == [] then false else if r[0].key == key then r[0].on else Lookup(r[1..], key)
  }

  /** `{ ...record, [key]: value }`: an existing key keeps its position, a new
      key goes at the end. */
  function Assign(r: Record, key: string, value: bool): (r': Record)
    ensures key in Keys(r) ==> Keys(r') == Keys(r)
    ensures key !in Keys(r) ==> r' == r + [Flag(key, value)]
  {
    if r == [] then [Flag(key, value)]
    else if r[0].key == key then [Flag(key, value)] + r[1..]
    else
      assert Keys(r) == [r[0].key] + Keys(r[1..]);
      [r[0]] + Assign(r[1..], key, value)
  }

  /** After the assignment, `key` reads `value` and every other key reads as before. */
  lemma {:induction false} AssignLookup(r: Record, key: string, value: bool)
    ensures forall k :: Lookup(Assign(r, key, value), k) == if k == key then value else Lookup(r, k)
  {
    if r != [] && r[0].key != key {
      AssignLookup(r[1..], key, value);
    }
  }

  /** `sections.reduce((acc, s) => ({ ...acc, [s.id]: s.default }), acc)`. */
  function Reduce(ss: seq<Section>, acc: Record): (r: Record)
    ensures |acc| <= |r| && Keys(r)[..|acc|] == Keys(acc)
    decreases |ss|
  {
    if ss == [] then acc
    else
      var next := Assign(acc, ss[0].id, ss[0].isDefault);
      assert |acc| <= |next| && Keys(next)[..|acc|] == Keys(acc) by {
        if ss[0].id !in Keys(acc) {
          KeysAppend(acc, Flag(ss[0].id, ss[0].isDefault));
        }
      }
      Reduce(ss[1..], next)
  }

  /** One flag per section, holding its default, in section order. */
  function DefaultFlags(ss: seq<Section>): (r: Record)
    ensures |r| == |ss| && forall i :: 0 <= i < |ss| ==> r[i] == Flag(ss[i].id, ss[i].isDefault)
  {
    if ss == [] then [] else [Flag(ss[0].id, ss[0].isDefault)] + DefaultFlags(ss[1..])
  }

  /** Each section id is absent from `keys` and from the ids before it. */
  predicate FreshIds(ss: seq<Section>, keys: seq<string>)
    decreases |ss|
  {
    ss == [] || (ss[0].id !in keys && FreshIds(ss[1..], keys + [ss[0].id]))
  }

  lemma KeysAppend(r: Record, f: Flag)
    ensures Keys(r + [f]) == Keys(r) + [f.key]
  {
  }

  /** Folding fresh section ids into a record appends their flags in order. */
  lemma {:induction false} ReduceAppends(ss: seq<Section>, acc: Record)
    requires FreshIds(ss, Keys(acc))
    ensures Reduce(ss, acc) == acc + DefaultFlags(ss)
    decreases |ss|
  {
    if ss != [] {
      var f := Flag(ss[0].id, ss[0].isDefault);
      KeysAppend(acc, f);
      ReduceAppends(ss[1..], acc + [f]);
      assert DefaultFlags(ss) == [f] + DefaultFlags(ss[1..]);
    }
  }

  lemma SectionIdsFresh()
    ensures FreshIds(Sections, [])
  {
    var s := Sections;
    assert s[5..][1..] == [];
    assert FreshIds(s[5..], ["about", "skills", "experience", "projects", "education"]);
    assert s[4..][1..] == s[5..];
    assert FreshIds(s[4..], ["about", "skills", "experience", "projects"]);
    assert s[3..][1..] == s[4..];
    assert s[3].id !in ["about", "skills", "experience"];
    assert ["about", "skills", "experience"] + [s[3].id] == ["about", "skills", "experience", "projects"];
    assert FreshIds(s[3..], ["about", "skills", "experience"]);
    assert s[2..][1..] == s[3..];
    assert s[2].id !in ["about", "skills"];
    assert ["about", "skills"] + [s[2].id] == ["about", "skills", "experience"];
    assert FreshIds(s[2..], ["about", "skills"]);
    assert s[1..][1..] == s[2..];
    assert s[1].id !in ["about"];
    assert ["about"] + [s[1].id] == ["about", "skills"];
    assert FreshIds(s[1..], ["about"]);
  }

  /** The initial `selectedSections`: the six section ids, in order, all on. */
  function InitialSelection(): (r: Record)
    ensures Keys(r) == ["about", "skills", "experience", "projects", "education", "contact"]
    ensures forall i :: 0 <= i < |r| ==> r[i].on
  {
    SectionIdsFresh();
    ReduceAppends(Sections, []);
    Reduce(Sections, [])
  }

  /** `toggleSection(id)` on the record. */
  function Toggle(r: Record, key: string): (r': Record)
    ensures Lookup(r', key) == !Lookup(r, key)
    ensures forall k :: k != key ==> Lookup(r', k) == Lookup(r, k)
    ensures key in Keys(r) ==> Keys(r') == Keys(r)
  {
    AssignLookup(r, key, !Lookup(r, key));
    Assign(r, key, !Lookup(r, key))
  }

  /** Switching an existing key twice gives back the very same record. */
  lemma {:induction false} ToggleTwice(r: Record, key: string)
    requires key in Keys(r)
    ensures Toggle(Toggle(r, key), key) == r
  {
    if r[0].key != key {
      assert Keys(r) == [r[0].key] + Keys(r[1..]);
      ToggleTwice(r[1..], key);
    }
  }

  /** Switching any key twice, present or not, gives back every reading. */
  lemma ToggleTwiceLookups(r: Record, key: string)
    ensures forall k :: Lookup(Toggle(Toggle(r, key), key), k) == Lookup(r, k)
  {
  }

  /** `Object.values(record).some(Boolean)`. */
  function SomeOn(r: Record): (b: bool)
    ensures b <==> OnKeys(r) != []
  {
    var b := exists i :: 0 <= i < |r| && r[i].on;
    assert b ==> OnKeys(r) != [] by {
      if b {
        var i :| 0 <= i < |r| && r[i].on;
        assert r[i].key in OnKeys(r);
      }
    }
    assert OnKeys(r) != [] ==> b by {
      if OnKeys(r) != [] {
        assert OnKeys(r)[0] in OnKeys(r);
      }
    }
    b
  }

  /** The generate button's `disabled`: enabled exactly when nothing is being
      generated and the preview would list at least one section. */
  function GenerateDisabled(isGenerating: bool, r: Record): (disabled: bool)
    ensures !disabled <==> !isGenerating && PreviewKeys(r) != []
  {
    isGenerating || !SomeOn(r)
  }

  /** The keys whose switch is on, in record order. */
  function OnKeys(r: Record): (ks: seq<string>)
    ensures |ks| <= |r|
    ensures forall k :: k in ks <==> exists i :: 0 <= i < |r| && r[i].key == k && r[i].on
  {
    Keys(Filter(r, (f: Flag) => f.on))
  }

  /** The preview's section list: the first four switched-on keys. */
  function PreviewKeys(r: Record): (ks: seq<string>)
    ensures |ks| == if |OnKeys(r)| < PreviewLimit then |OnKeys(r)| else PreviewLimit
    ensures ks == OnKeys(r)[..|ks|]
  {
    var on := OnKeys(r);
    if |on| <= PreviewLimit then on else on[..PreviewLimit]
  }

  /** With distinct keys a key reads true exactly when some entry for it is on. */
  lemma {:induction false} LookupOn(r: Record, k: string)
    requires DistinctKeys(r)
    ensures Lookup(r, k) <==> exists i :: 0 <= i < |r| && r[i].key == k && r[i].on
  {
    if r != [] {
      var t := r[1..];
      assert DistinctKeys(t) by {
        forall i, j | 0 <= i < j < |t| ensures t[i].key != t[j].key {
          assert t[i] == r[i + 1] && t[j] == r[j + 1];
        }
      }
      LookupOn(t, k);
      if exists i :: 0 <= i < |r| && r[i].key == k && r[i].on {
        var i :| 0 <= i < |r| && r[i].key == k && r[i].on;
        if i > 0 {
          assert t[i - 1] == r[i];
        }
      }
      if r[0].key != k && Lookup(t, k) {
        var i :| 0 <= i < |t| && t[i].key == k && t[i].on;
        assert r[i + 1] == t[i];
      }
    }
  }

  /** With distinct keys, the switched-on keys are exactly the keys that read true. */
  lemma OnKeysAreLookups(r: Record, k: string)
    requires DistinctKeys(r)
    ensures k in OnKeys(r) <==> Lookup(r, k)
  {
    LookupOn(r, k);
  }

  /** With every switch on, the switched-on keys are all the keys. */
  lemma AllOnKeys(r: Record)
    requires forall i :: 0 <= i < |r| ==> r[i].on
    ensures OnKeys(r) == Keys(r)
    ensures r != [] ==> !GenerateDisabled(false, r)
  {
    assert Filter(r, (f: Flag) => f.on) == r;
    if r != [] {
      assert r[0].on;
    }
  }

  /** On first render every switch is on: generate is enabled and the preview
      would list about, skills, experience and projects. */
  lemma InitialPreview()
    ensures !GenerateDisabled(false, InitialSelection())
    ensures PreviewKeys(InitialSelection()) == ["about", "skills", "experience", "projects"]
  {
    var r := InitialSelection();
    AllOnKeys(r);
    FirstFourOfSix(r);
  }

  lemma FirstFourOfSix(r: Record)
    requires OnKeys(r) == ["about", "skills", "experience", "projects", "education", "contact"]
    ensures PreviewKeys(r) == ["about", "skills", "experience", "projects"]
  {
  }

  /** With every switch off (and a switch for each key), generating is disabled
      and the preview is empty. */
  lemma AllOffDisablesGenerate(r: Record)
    requires forall i :: 0 <= i < |r| ==> !r[i].on
    ensures GenerateDisabled(false, r)
    ensures PreviewKeys(r) == []
  {
  }

  /** The initial record has no repeated key. */
  lemma InitialDistinct()
    ensures DistinctKeys(InitialSelection())
  {
    var r := InitialSelection();
    var ids := ["about", "skills", "experience", "projects", "education", "contact"];
    assert forall i :: 0 <= i < |r| ==> r[i].key == ids[i];
  }

  /** Switching a key never repeats a key. */
  lemma {:induction false} ToggleKeepsDistinct(r: Record, key: string)
    requires DistinctKeys(r)
    ensures DistinctKeys(Toggle(r, key))
  {
    var r' := Toggle(r, key);
    if key in Keys(r) {
      assert forall i :: 0 <= i < |r'| ==> r'[i].key == Keys(r')[i] == Keys(r)[i] == r[i].key;
    } else {
      assert r' == r + [Flag(key, !Lookup(r, key))];
      forall i | 0 <= i < |r| ensures r[i].key != key {
        assert Keys(r)[i] == r[i].key;
      }
    }
  }

  class PortfolioGenerator {
    var selectedSections: Record
    var isGenerating: bool
    var portfolioGenerated: bool

    /** The record holds each key once, so what a switch shows and what the
        preview and the generate gate read agree. */
    ghost predicate Valid()
      reads this
    {
      DistinctKeys(selectedSections)
    }

    constructor ()
      ensures Valid()
      ensures selectedSections == InitialSelection()
      ensures !isGenerating && !portfolioGenerated
    {
      selectedSections := InitialSelection();
      isGenerating := false;
      portfolioGenerated := false;
      InitialDistinct();
    }

    /** The `checked` state of a section's switch: on exactly when the
        preview and the generate gate count the section as switched on. */
    function SectionChecked(id: string): (checked: bool)
      reads this
      requires Valid()
      ensures checked <==> id in OnKeys(selectedSections)
    {
      OnKeysAreLookups(selectedSections, id);
      Lookup(selectedSections, id)
    }

    method ToggleSection(id: string)
      requires Valid()
      modifies this`selectedSections
      ensures Valid()
      ensures selectedSections == Toggle(old(selectedSections), id)
    {
      ToggleKeepsDistinct(selectedSections, id);
      selectedSections := Toggle(selectedSections, id);
    }

    /** `handleGenerate`: the generation starts (its timer is pending). */
    method HandleGenerate()
      requires Valid()
      modifies this`isGenerating
      ensures Valid()
      ensures isGenerating
    {
      isGenerating := true;
    }

    /** The timer callback of `handleGenerate`. */
    method FinishGenerate()
      requires Valid()
      modifies this`isGenerating, this`portfolioGenerated
      ensures Valid()
      ensures !isGenerating && portfolioGenerated
    {
      isGenerating := false;
      portfolioGenerated := true;
    }

    /** The sections drawn in the preview mock-up: none until a portfolio
        has been generated, then the first four switched-on sections. */
    function PreviewSections(): (ks: seq<string>)
      reads this
      ensures |ks| <= PreviewLimit
      ensures !portfolioGenerated ==> ks == []
      ensures portfolioGenerated ==> ks == PreviewKeys(selectedSections)
    {
      if portfolioGenerated then PreviewKeys(selectedSections) else []
    }
  }
}
