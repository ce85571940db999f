/** The filter sheet of the home feed (components/FilterModal.tsx): a draft `FilterState` that the sheet edits and
    hands back on Apply. */
module FilterModal {
  import opened Seqs

  /** Price bounds stay the text typed into the number inputs; the feed parses them. */
  datatype FilterState = FilterState(
    distance: int,
    priceMin: string,
    priceMax: string,
    condition: seq<string>,
    sortBy: string)

  /** The condition chips the sheet offers. */
  const Conditions: seq<string> := ["New", "Like New", "Used - Good", "Used - Fair", "For Parts"]

  /** The ids of the sort radio buttons. */
  const SortOptions: seq<string> := ["newest", "closest", "price_asc", "price_desc"]

  const MinDistance := 1
  const MaxDistance := 50

  /** Selecting a chip that is on drops every copy of it; selecting one that is off appends it. */
  function Toggle(list: seq<string>, c: string): seq<string> {
    if c in list then Filter(list, x => x != c) else list + [c]
  }

  /** `handleConditionToggle`: only the condition list of the draft changes. */
  function ToggleCondition(f: FilterState, c: string): (r: FilterState)
    ensures r.distance == f.distance && r.priceMin == f.priceMin && r.priceMax == f.priceMax
    ensures r.sortBy == f.sortBy
    ensures c in r.condition <==> c !in f.condition
  {
    ToggleMembership(f.condition, c);
    f.(condition := Toggle(f.condition, c))
  }

  /** After a toggle the chip is selected exactly when it was not before. */
  lemma ToggleMembership(list: seq<string>, c: string)
    ensures c in Toggle(list, c) <==> c !in list
  {
    if c in list {
      FilterMembers(list, x => x != c, c);
    }
  }

  /** Switching a chip off removes all its copies and keeps every other chip, in order and with its count. */
  lemma ToggleOff(list: seq<string>, c: string)
    requires c in list
    ensures IsSubsequence(Toggle(list, c), list)
    ensures multiset(Toggle(list, c))[c] == 0
    ensures forall x :: x != c ==> multiset(Toggle(list, c))[x] == multiset(list)[x]
  {
    FilterIsSubsequence(list, x => x != c);
    FilterMembers(list, x => x != c, c);
    forall x | x != c
      ensures multiset(Toggle(list, c))[x] == multiset(list)[x]
    {
      FilterKeepsCount(list, c, x);
    }
  }

  lemma {:induction false} FilterKeepsCount(list: seq<string>, c: string, x: string)
    requires x != c
    ensures multiset(Filter(list, y => y != c))[x] == multiset(list)[x]
  {
    if list != [] {
      FilterKeepsCount(list[1..], c, x);
      assert list == [list[0]] + list[1..];
    }
  }

  /** Switching a chip on appends it behind the chips already selected. */
  lemma ToggleOn(list: seq<string>, c: string)
    requires c !in list
    ensures |Toggle(list, c)| == |list| + 1
    ensures Toggle(list, c)[..|list|] == list && Toggle(list, c)[|list|] == c
  {
  }

  /** Toggling the same chip twice leaves the selected set as it was; from "off" it restores the list exactly. */
  lemma ToggleTwice(list: seq<string>, c: string)
    ensures (set x | x in Toggle(Toggle(list, c), c)) == (set x | x in list)
    ensures c !in list ==> Toggle(Toggle(list, c), c) == list
  {
    var p := (x: string) => x != c;
    if c in list {
      var once := Filter(list, p);
      FilterMembers(list, p, c);
      forall x ensures x in Toggle(once, c) <==> x in list {
        FilterMembers(list, p, x);
      }
    } else {
      FilterConcat(list, [c], p);
      assert Filter([c], p) == [] by {
        FilterCons(c, [], p);
      }
      FilterAll(list, p);
    }
  }

  /** The Reset button's defaults. */
  function Reset(): (r: FilterState)
    ensures r.distance == 10 && r.priceMin == "" && r.priceMax == ""
    ensures r.condition == [] && r.sortBy == SortOptions[0]
  {
    FilterState(10, "", "", [], "newest")
  }

  /** The range input `min="1" max="50"`: the browser clamps the thumb, and `parseInt` of its value is the
      distance. */
  function SlideDistance(f: FilterState, position: int): (r: FilterState)
    ensures MinDistance <= r.distance <= MaxDistance
    ensures MinDistance <= position <= MaxDistance ==> r.distance == position
    ensures r == f.(distance := r.distance)
  {
    var d := if position < MinDistance then MinDistance else if position > MaxDistance then MaxDistance else position;
    f.(distance := d)
  }

  /** The price inputs: the typed text replaces one bound and nothing else. */
  function EditPriceMin(f: FilterState, text: string): (r: FilterState)
    ensures r.priceMin == text && r == f.(priceMin := text)
  {
    f.(priceMin := text)
  }

  function EditPriceMax(f: FilterState, text: string): (r: FilterState)
    ensures r.priceMax == text && r == f.(priceMax := text)
  {
    f.(priceMax := text)
  }

  /** A sort radio selects its option's id and nothing else. */
  function SelectSort(f: FilterState, k: nat): (r: FilterState)
    requires k < |SortOptions|
    ensures r.sortBy in SortOptions && r.sortBy == SortOptions[k]
    ensures r == f.(sortBy := r.sortBy)
  {
    f.(sortBy := SortOptions[k])
  }

  /** The sheet's own state. The feed renders the sheet on every render and a closed sheet returns null only
      after its hooks have run, so it stays mounted: `useState(initialFilters)` reads the prop once, at the
      feed's first render, and the draft then outlives every close of the sheet. */
  class Sheet {
    var draft: FilterState

    constructor(initialFilters: FilterState)
      ensures draft == initialFilters
    {
      draft := initialFilters;
    }

    /** A condition chip's click. */
    method ConditionClick(c: string)
      modifies this
      ensures draft == ToggleCondition(old(draft), c)
    {
      draft := ToggleCondition(draft, c);
    }

    /** The distance slider's onChange. */
    method Slide(position: int)
      modifies this
      ensures draft == SlideDistance(old(draft), position)
    {
      draft := SlideDistance(draft, position);
    }

    /** The minimum price box's onChange. */
    method TypeMin(text: string)
      modifies this
      ensures draft == EditPriceMin(old(draft), text)
    {
      draft := EditPriceMin(draft, text);
    }

    /** The maximum price box's onChange. */
    method TypeMax(text: string)
      modifies this
      ensures draft == EditPriceMax(old(draft), text)
    {
      draft := EditPriceMax(draft, text);
    }

    /** The k-th sort radio's onChange. */
    method PickSort(k: nat)
      requires k < |SortOptions|
      modifies this
      ensures draft == SelectSort(old(draft), k)
    {
      draft := SelectSort(draft, k);
    }

    /** The Reset button: the draft returns to the sheet's defaults; nothing is applied. */
    method ResetClick()
      modifies this
      ensures draft == Reset()
    {
      draft := Reset();
    }
  }
}
