/** The accordion's expansion store (`AccordionProvider`): an ordered list of
    expanded item ids and a fixed single/multiple expansion policy. */
module AccordionContext {
  import opened Wrappers

  // ---------------------------------------------------------------------------
  // The list operations the store is built on
  // ---------------------------------------------------------------------------

  /** `items.includes(id)`: a left-to-right scan of the list, true exactly
      when `id` occurs in it. */
  function Includes(items: seq<string>, id: string): (r: bool)
    ensures r <==> id in items
  {
    if items == [] then false
    else
      assert items == [items[0]] + items[1..];
      items[0] == id || Includes(items[1..], id)
  }

  /** `items.filter(item => item !== id)`: no occurrence of `id` is left, the
      list does not grow, and nothing new appears. */
  function Without(items: seq<string>, id: string): (r: seq<string>)
    ensures id !in r
    ensures |r| <= |items|
    ensures forall x :: x in r ==> x in items
  {
    if items == [] then []
    else (if items[0] != id then [items[0]] else []) + Without(items[1..], id)
  }

  /** `t` is obtained from `s` by deleting some entries, keeping the rest in order. */
  ghost predicate SubsequenceOf(t: seq<string>, s: seq<string>)
    decreases |s|
  {
    t == [] ||
    (s != [] &&
     ((t[0] == s[0] && SubsequenceOf(t[1..], s[1..])) || SubsequenceOf(t, s[1..])))
  }

  /** No id occurs twice. */
  ghost predicate Distinct(items: seq<string>)
  {
    forall x :: multiset(items)[x] <= 1
  }

  /** Filtering deletes every occurrence of `id` and leaves the count of every
      other id as it was. */
  lemma {:induction false} WithoutCounts(items: seq<string>, id: string)
    ensures multiset(Without(items, id)) == multiset(items)[id := 0]
  {
    if items != [] {
      WithoutCounts(items[1..], id);
      assert items == [items[0]] + items[1..];
    }
  }

  lemma WithoutMembership(items: seq<string>, id: string, x: string)
    ensures x in Without(items, id) <==> x != id && x in items
  {
  }

  /** Filtering keeps the surviving ids in their original relative order. */
  lemma {:induction false} WithoutIsSubsequence(items: seq<string>, id: string)
    ensures SubsequenceOf(Without(items, id), items)
  {
    if items != [] {
      WithoutIsSubsequence(items[1..], id);
      var rest := Without(items[1..], id);
      if items[0] != id {
        assert Without(items, id) == [items[0]] + rest;
        assert Without(items, id)[1..] == rest;
      } else {
        assert Without(items, id) == rest;
      }
    }
  }

  /** Filtering a concatenation filters each part: relative order across the
      two parts is kept as well. */
  lemma {:induction false} WithoutDistributes(a: seq<string>, b: seq<string>, id: string)
    ensures Without(a + b, id) == Without(a, id) + Without(b, id)
  {
    if a != [] {
      WithoutDistributes(a[1..], b, id);
      assert (a + b)[1..] == a[1..] + b;
    } else {
      assert a + b == b;
    }
  }

  /** Each occurrence of `id` shortens the list by one. */
  lemma {:induction false} WithoutLength(items: seq<string>, id: string)
    ensures |Without(items, id)| == |items| - multiset(items)[id]
  {
    if items != [] {
      WithoutLength(items[1..], id);
      assert items == [items[0]] + items[1..];
    }
  }

  /** Collapsing is idempotent. */
  lemma {:induction false} WithoutIdempotent(items: seq<string>, id: string)
    ensures Without(Without(items, id), id) == Without(items, id)
  {
    if items != [] {
      WithoutIdempotent(items[1..], id);
      var rest := Without(items[1..], id);
      if items[0] != id {
        assert Without(items, id) == [items[0]] + rest;
        assert ([items[0]] + rest)[1..] == rest;
        assert Without([items[0]] + rest, id) == [items[0]] + Without(rest, id);
      } else {
        assert Without(items, id) == rest;
      }
    }
  }

  /** Collapsing an id that is not expanded changes nothing. */
  lemma {:induction false} WithoutAbsent(items: seq<string>, id: string)
    requires id !in items
    ensures Without(items, id) == items
  {
    if items != [] {
      assert id !in items[1..];
      WithoutAbsent(items[1..], id);
      assert items == [items[0]] + items[1..];
    }
  }

  // ---------------------------------------------------------------------------
  // The store's transitions, as functions of the current list
  // ---------------------------------------------------------------------------

  /** The list after `expandItem(id)`: `id` is expanded; under the single
      policy it is the only entry, under the multiple policy it is added at the
      end and every earlier entry keeps its place. */
  function Expand(items: seq<string>, allowMultiple: bool, id: string): (r: seq<string>)
    ensures id in r
    ensures !allowMultiple ==> |r| == 1
    ensures allowMultiple ==> |r| == |items| + 1 && r[..|items|] == items && r[|items|] == id
  {
    if allowMultiple then items + [id] else [id]
  }

  /** The list after `toggleItem(id)`: it flips whether `id` is expanded,
      under either policy. */
  function Toggle(items: seq<string>, allowMultiple: bool, id: string): (r: seq<string>)
    ensures id in r <==> id !in items
  {
    if Includes(items, id) then Without(items, id) else Expand(items, allowMultiple, id)
  }

  /** One call on the store. */
  datatype Call = ExpandCall(id: string) | CollapseCall(id: string) | ToggleCall(id: string)

  function Step(items: seq<string>, allowMultiple: bool, c: Call): (r: seq<string>)
  {
    match c
    case ExpandCall(id) => Expand(items, allowMultiple, id)
    case CollapseCall(id) => Without(items, id)
    case ToggleCall(id) => Toggle(items, allowMultiple, id)
  }

  /** The list after a sequence of calls, applied in the order issued. */
  function Run(items: seq<string>, allowMultiple: bool, calls: seq<Call>): (r: seq<string>)
    decreases |calls|
  {
    if calls == [] then items
    else Run(Step(items, allowMultiple, calls[0]), allowMultiple, calls[1..])
  }

  /** Toggling the same id twice restores whether it is expanded. */
  lemma ToggleTwice(items: seq<string>, allowMultiple: bool, id: string)
    ensures id in Toggle(Toggle(items, allowMultiple, id), allowMultiple, id) <==> id in items
  {
  }

  /** Under the multiple policy a toggle leaves every other id as it was. */
  lemma MultiToggleKeepsOthers(items: seq<string>, id: string, x: string)
    requires x != id
    ensures x in Toggle(items, true, id) <==> x in items
  {
    WithoutMembership(items, id, x);
  }

  /** Under the multiple policy a toggle never introduces a duplicate. */
  lemma MultiToggleKeepsDistinct(items: seq<string>, id: string)
    requires Distinct(items)
    ensures Distinct(Toggle(items, true, id))
  {
    var r := Toggle(items, true, id);
    if id in items {
      WithoutCounts(items, id);
    } else {
      assert multiset(r) == multiset(items) + multiset{id};
      forall x ensures multiset(r)[x] <= 1 {
        if x == id {
          assert multiset(items)[x] == 0;
        }
      }
    }
  }

  /** Under the multiple policy a direct `expandItem` does not check whether the
      id is already expanded: an expanded id then occurs once more. */
  lemma MultiExpandDuplicates(items: seq<string>, id: string)
    requires id in items
    ensures multiset(Expand(items, true, id))[id] == multiset(items)[id] + 1
    ensures !Distinct(Expand(items, true, id))
  {
  }

  /** Because collapsing removes every occurrence, one collapse undoes any
      number of duplicate expands. */
  lemma CollapseAfterDuplicates(items: seq<string>, id: string, n: nat)
    ensures id !in Without(items + seq(n, _ => id), id)
  {
  }

  /** Two expands of different ids under the multiple policy leave both expanded. */
  lemma MultiExpandBoth(items: seq<string>, a: string, b: string)
    ensures a in Expand(Expand(items, true, a), true, b)
    ensures b in Expand(Expand(items, true, a), true, b)
  {
  }

  /** Under the single policy any call leaves at most one entry when it started
      with at most one; an expand leaves exactly one. */
  lemma SingleStepBound(items: seq<string>, c: Call)
    requires |items| <= 1
    ensures |Step(items, false, c)| <= 1
    ensures c.ExpandCall? ==> Step(items, false, c) == [c.id]
  {
  }

  /** The single policy keeps the list at most one long, provided the initial
      list was; the initial list itself is taken unfiltered. */
  lemma {:induction false} SingleRunBound(items: seq<string>, calls: seq<Call>)
    requires |items| <= 1
    ensures |Run(items, false, calls)| <= 1
    decreases |calls|
  {
    if calls != [] {
      SingleStepBound(items, calls[0]);
      SingleRunBound(Step(items, false, calls[0]), calls[1..]);
    }
  }

  /** A seed of two ids under the single policy survives a collapse of a third
      id: the single-expansion bound does not hold for an unfiltered seed. */
  lemma SingleSeedNotFiltered()
    ensures |Run(["item-1", "item-2"], false, [CollapseCall("item-3")])| == 2
  {
  }

  // ---------------------------------------------------------------------------
  // The store
  // ---------------------------------------------------------------------------

  const NoProviderError: string := "useAccordion must be used within an AccordionProvider"

  class AccordionStore {
    var expandedItems: seq<string>
    const allowMultiple: bool

    /** The provider's initial state: the seed as given, unfiltered; an
        omitted seed is empty and an omitted policy is the single one. */
    constructor (defaultExpandedItems: Option<seq<string>>, allowMultiple: Option<bool>)
      ensures expandedItems == if defaultExpandedItems.Some? then defaultExpandedItems.value else []
      ensures this.allowMultiple == (allowMultiple.Some? && allowMultiple.value)
    {
      expandedItems := if defaultExpandedItems.Some? then defaultExpandedItems.value else [];
      this.allowMultiple := allowMultiple.Some? && allowMultiple.value;
    }

    function IsExpanded(id: string): (b: bool)
      reads this
      ensures b <==> id in expandedItems
    {
      Includes(expandedItems, id)
    }

    method ExpandItem(id: string)
      modifies this
      ensures expandedItems == Expand(old(expandedItems), allowMultiple, id)
      ensures allowMultiple ==> expandedItems == old(expandedItems) + [id]
      ensures !allowMultiple ==> expandedItems == [id]
    {
      if allowMultiple {
        expandedItems := expandedItems + [id];
      } else {
        expandedItems := [id];
      }
    }

    method CollapseItem(id: string)
      modifies this
      ensures expandedItems == Without(old(expandedItems), id)
      ensures !IsExpanded(id)
      ensures forall x :: x != id ==> (IsExpanded(x) <==> old(IsExpanded(x)))
      ensures |expandedItems| <= |old(expandedItems)|
    {
      ghost var before := expandedItems;
      expandedItems := Without(expandedItems, id);
      WithoutLength(before, id);
      forall x ensures x in expandedItems <==> x != id && x in before {
        WithoutMembership(before, id, x);
      }
    }

    method ToggleItem(id: string)
      modifies this
      ensures expandedItems == Toggle(old(expandedItems), allowMultiple, id)
      ensures IsExpanded(id) <==> !old(IsExpanded(id))
    {
      if IsExpanded(id) {
        CollapseItem(id);
      } else {
        ExpandItem(id);
      }
    }
  }

  /** `useAccordion()`: the enclosing provider's store, or the error it throws
      when there is none. */
  function UseAccordion(context: Option<AccordionStore>): (r: Result<AccordionStore, string>)
    ensures r.Failure? <==> context.None?
    ensures r.Failure? ==> r.error == NoProviderError
    ensures r.Success? ==> r.value == context.value
  {
    match context
    case None => Failure(NoProviderError)
    case Some(store) => Success(store)
  }

  /** A client: toggles under each policy, from what the store's contracts say. */
  method TogglesUnderEachPolicy()
  {
    // single policy, item-1 expanded, toggle item-2
    var a := new AccordionStore(Some(["item-1"]), None);
    a.ToggleItem("item-2");
    assert a.expandedItems == ["item-2"];

    // multiple policy, item-1 and item-2 expanded, toggle item-1
    var b := new AccordionStore(Some(["item-1", "item-2"]), Some(true));
    b.ToggleItem("item-1");
    assert b.expandedItems == ["item-2"];

    // single policy, nothing expanded, toggle item-1 twice
    var d := new AccordionStore(None, Some(false));
    d.ToggleItem("item-1");
    d.ToggleItem("item-1");
    assert d.expandedItems == [];
  }
}
