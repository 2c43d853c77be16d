/** The editable sublists of the resume builder (experience entries,
    education entries): ordered entries that each carry a locally generated
    id, with add, remove and update-one-entry operations that are the same
    for every kind of entry. */
module EntryList {
  import opened Seqs

  /** One entry of a sublist: its id and its own string fields `data`. */
  datatype Entry<R> = Entry(id: string, data: R)

  predicate HasId<R>(s: seq<Entry<R>>, id: string) {
    exists i :: 0 <= i < |s| && s[i].id == id
  }

  /** The ids of the entries, in list order. */
  function Ids<R>(s: seq<Entry<R>>): (r: seq<string>)
    ensures |r| == |s| && forall i :: 0 <= i < |s| ==> r[i] == s[i].id
  {
    if s == [] then [] else [s[0].id] + Ids(s[1..])
  }

  ghost predicate DistinctIds<R>(s: seq<Entry<R>>) {
    forall i, j :: 0 <= i < j < |s| ==> s[i].id != s[j].id
  }

  /** `[...list, { id, <blank fields> }]`: a blank entry at the end. */
  function Add<R>(s: seq<Entry<R>>, id: string, blank: R): (r: seq<Entry<R>>)
    ensures |r| == |s| + 1 && r[..|s|] == s
    ensures r[|s|].id == id && r[|s|].data == blank
    ensures DistinctIds(s) && !HasId(s, id) ==> DistinctIds(r)
  {
    s + [Entry(id, blank)]
  }

  /** `list.filter(e => e.id !== id)`: every entry with that id is dropped. */
  function WithoutId<R>(s: seq<Entry<R>>, id: string): (r: seq<Entry<R>>)
    ensures forall i :: 0 <= i < |r| ==> r[i] in s && r[i].id != id
    ensures forall i :: 0 <= i < |s| && s[i].id != id ==> s[i] in r
    ensures !HasId(s, id) ==> r == s
  {
    Filter(s, (e: Entry<R>) => e.id != id)
  }

  lemma {:induction false} FilterKeepsDistinct<R>(s: seq<Entry<R>>, p: Entry<R> -> bool)
    requires DistinctIds(s)
    ensures DistinctIds(Filter(s, p))
  {
    if s != [] {
      FilterKeepsDistinct(s[1..], p);
      var rest := Filter(s[1..], p);
      if p(s[0]) {
        var r := [s[0]] + rest;
        forall i, j | 0 <= i < j < |r| ensures r[i].id != r[j].id {
          if i == 0 {
            assert r[j] == rest[j - 1] && rest[j - 1] in s[1..];
          } else {
            assert r[i] == rest[i - 1] && r[j] == rest[j - 1];
          }
        }
      }
    }
  }

  /** With distinct ids, dropping one id removes at most one entry. */
  lemma {:induction false} WithoutIdRemovesAtMostOne<R>(s: seq<Entry<R>>, id: string)
    ensures DistinctIds(s) ==> |WithoutId(s, id)| >= |s| - 1 && DistinctIds(WithoutId(s, id))
  {
    if DistinctIds(s) {
      FilterKeepsDistinct(s, (e: Entry<R>) => e.id != id);
    }
    if s != [] && DistinctIds(s) {
      var p := (e: Entry<R>) => e.id != id;
      if s[0].id == id {
        assert forall i :: 0 <= i < |s[1..]| ==> p(s[1..][i]) by {
          forall i | 0 <= i < |s[1..]| ensures p(s[1..][i]) {
            assert s[1..][i] == s[i + 1];
          }
        }
        assert Filter(s, p) == Filter(s[1..], p) == s[1..];
      } else {
        WithoutIdRemovesAtMostOne(s[1..], id);
      }
    }
  }

  /** Removing from a concatenation removes from each part: the filter keeps
      the surviving entries in their order, each as often as before. */
  lemma WithoutIdAppend<R>(a: seq<Entry<R>>, b: seq<Entry<R>>, id: string)
    ensures WithoutId(a + b, id) == WithoutId(a, id) + WithoutId(b, id)
  {
    FilterAppend(a, b, (e: Entry<R>) => e.id != id);
  }

  /** `if (list.length > 1) setList(list.filter(e => e.id !== id))`: the
      last remaining entry is never removed. */
  function Remove<R>(s: seq<Entry<R>>, id: string): (r: seq<Entry<R>>)
    ensures |s| <= 1 || !HasId(s, id) ==> r == s
    ensures |s| > 1 ==> forall i :: 0 <= i < |r| ==> r[i] in s && r[i].id != id
    ensures |s| > 1 ==> forall i :: 0 <= i < |s| && s[i].id != id ==> s[i] in r
    ensures |s| >= 1 && DistinctIds(s) ==> |r| >= 1 && DistinctIds(r)
  {
    if |s| > 1 then
      WithoutIdRemovesAtMostOne(s, id);
      WithoutId(s, id)
    else s
  }

  /** `list.map(e => e.id === id ? change(e) : e)`: entries with that id get
      `change` applied to their fields; ids, order and every other entry stay. */
  function UpdateWhere<R>(s: seq<Entry<R>>, id: string, change: R -> R): (r: seq<Entry<R>>)
    ensures |r| == |s|
    ensures forall i :: 0 <= i < |s| ==> r[i].id == s[i].id
    ensures forall i :: 0 <= i < |s| && s[i].id != id ==> r[i] == s[i]
    ensures forall i :: 0 <= i < |s| && s[i].id == id ==> r[i].data == change(s[i].data)
    ensures DistinctIds(s) ==> DistinctIds(r)
  {
    seq(|s|, i requires 0 <= i < |s| => if s[i].id == id then Entry(id, change(s[i].data)) else s[i])
  }

  /** One user action on a sublist. */
  datatype Edit<!R> = AddEntry(newId: string) | RemoveEntry(id: string) | UpdateEntry(id: string, change: R -> R)

  function ApplyEdit<R>(s: seq<Entry<R>>, blank: R, e: Edit<R>): seq<Entry<R>> {
    match e
    case AddEntry(newId) => Add(s, newId, blank)
    case RemoveEntry(id) => Remove(s, id)
    case UpdateEntry(id, change) => UpdateWhere(s, id, change)
  }

  function ApplyEdits<R>(s: seq<Entry<R>>, blank: R, edits: seq<Edit<R>>): seq<Entry<R>>
    decreases |edits|
  {
    if edits == [] then s else ApplyEdits(ApplyEdit(s, blank, edits[0]), blank, edits[1..])
  }

  /** Every `AddEntry` in `edits` brings an id not yet in the list at that point. */
  ghost predicate FreshAdds<R>(s: seq<Entry<R>>, blank: R, edits: seq<Edit<R>>)
    decreases |edits|
  {
    edits == [] ||
    ((edits[0].AddEntry? ==> !HasId(s, edits[0].newId)) &&
     FreshAdds(ApplyEdit(s, blank, edits[0]), blank, edits[1..]))
  }

  /** A sublist that starts non-empty with distinct ids stays non-empty, with
      distinct ids, through any sequence of edits whose new ids are fresh. */
  lemma {:induction false} EditsKeepNonEmpty<R>(s: seq<Entry<R>>, blank: R, edits: seq<Edit<R>>)
    requires |s| >= 1 && DistinctIds(s)
    requires FreshAdds(s, blank, edits)
    ensures |ApplyEdits(s, blank, edits)| >= 1
    ensures DistinctIds(ApplyEdits(s, blank, edits))
    decreases |edits|
  {
    if edits != [] {
      EditsKeepNonEmpty(ApplyEdit(s, blank, edits[0]), blank, edits[1..]);
    }
  }

  /** Without distinct ids the guard is not enough: two entries sharing an id
      are removed together and the sublist becomes empty. */
  lemma SharedIdEmptiesList<R>(x: R, y: R)
    ensures Remove([Entry("t", x), Entry("t", y)], "t") == []
  {
    var s := [Entry("t", x), Entry("t", y)];
    assert Filter(s, (e: Entry<R>) => e.id != "t") == [];
  }
}
