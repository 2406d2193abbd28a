/** One accordion item (`AccordionItem`): the disabled gate in front of the
    store's toggle, the height effect, and the attributes derived from whether
    the item is expanded. */
module AccordionItem {
  import opened Wrappers
  import opened AccordionContext

  // ---------------------------------------------------------------------------
  // Element ids
  // ---------------------------------------------------------------------------

  const HeaderPrefix: string := "accordion-header-"
  const PanelPrefix: string := "accordion-panel-"

  /** `accordion-header-${id}`: the prefix followed by the item id. */
  function HeaderId(id: string): (r: string)
    ensures |r| == |HeaderPrefix| + |id|
    ensures r[..|HeaderPrefix|] == HeaderPrefix && r[|HeaderPrefix|..] == id
  {
    HeaderPrefix + id
  }

  /** `accordion-panel-${id}`: the prefix followed by the item id. */
  function PanelId(id: string): (r: string)
    ensures |r| == |PanelPrefix| + |id|
    ensures r[..|PanelPrefix|] == PanelPrefix && r[|PanelPrefix|..] == id
  {
    PanelPrefix + id
  }

  /** Distinct items get distinct header and panel ids, and no header id is
      ever a panel id. */
  lemma IdsAreUnambiguous(a: string, b: string)
    ensures HeaderId(a) == HeaderId(b) ==> a == b
    ensures PanelId(a) == PanelId(b) ==> a == b
    ensures HeaderId(a) != PanelId(b)
  {
    assert HeaderId(a)[10] == 'h';
    assert PanelId(b)[10] == 'p';
  }

  // ---------------------------------------------------------------------------
  // The panel's inline height: `${height}px`, or 'auto' while undefined
  // ---------------------------------------------------------------------------

  predicate AllDigits(s: string)
  {
    forall i :: 0 <= i < |s| ==> '0' <= s[i] <= '9'
  }

  /** A non-empty digit string without leading zeros. */
  predicate Canonical(s: string)
  {
    |s| > 0 && AllDigits(s) && (|s| > 1 ==> s[0] != '0')
  }

  function DigitChar(d: nat): (c: char)
    requires d < 10
  {
    ('0' as int + d) as char
  }

  function DigitValue(c: char): (d: nat)
    requires '0' <= c <= '9'
  {
    c as int - '0' as int
  }

  /** How JavaScript writes a non-negative integer: decimal, no leading zeros. */
  function Decimal(n: nat): (s: string)
    decreases n
  {
    if n < 10 then [DigitChar(n)] else Decimal(n / 10) + [DigitChar(n % 10)]
  }

  function DecimalValue(s: string): (n: nat)
    requires AllDigits(s)
    decreases |s|
  {
    if s == [] then 0 else DecimalValue(s[..|s| - 1]) * 10 + DigitValue(s[|s| - 1])
  }

  lemma {:induction false} DecimalRoundTrip(n: nat)
    ensures |Decimal(n)| > 0 && AllDigits(Decimal(n))
    ensures n > 0 ==> Decimal(n)[0] != '0'
    ensures |Decimal(n)| > 1 ==> Decimal(n)[0] != '0'
    ensures DecimalValue(Decimal(n)) == n
    decreases n
  {
    if n >= 10 {
      DecimalRoundTrip(n / 10);
      var s := Decimal(n);
      assert s[..|s| - 1] == Decimal(n / 10);
      assert s[0] == Decimal(n / 10)[0];
    }
  }

  /** A digit string whose value is 0 is all zeros. */
  lemma {:induction false} ZeroValueAllZeros(s: string)
    requires AllDigits(s) && DecimalValue(s) == 0
    ensures forall i :: 0 <= i < |s| ==> s[i] == '0'
    decreases |s|
  {
    if s != [] {
      var p := s[..|s| - 1];
      assert AllDigits(p);
      ZeroValueAllZeros(p);
      forall i | 0 <= i < |s| ensures s[i] == '0' {
        if i < |s| - 1 {
          assert s[i] == p[i];
        }
      }
    }
  }

  /** Every canonical digit string is how its value is written. */
  lemma {:induction false} DecimalOfValue(s: string)
    requires Canonical(s)
    ensures Decimal(DecimalValue(s)) == s
    decreases |s|
  {
    if |s| > 1 {
      var p := s[..|s| - 1];
      assert AllDigits(p) && |p| > 0;
      assert p[0] == s[0];
      if DecimalValue(p) == 0 {
        ZeroValueAllZeros(p);
        assert false;
      }
      DecimalOfValue(p);
      var v := DecimalValue(s);
      assert v / 10 == DecimalValue(p) && v % 10 == DigitValue(s[|s| - 1]);
      assert s == p + [s[|s| - 1]];
    }
  }

  /** The inline height: 'auto' exactly while the height is undefined,
      otherwise a number followed by "px". */
  function StyleHeight(height: Option<nat>): (r: string)
    ensures r == "auto" <==> height.None?
    ensures height.Some? ==> |r| > 2 && r[|r| - 2..] == "px"
  {
    match height
    case None => "auto"
    case Some(n) =>
      var r := Decimal(n) + "px";
      assert r[|r| - 1] == 'x';
      r
  }

  /** Reads a height back from the style string; only the exact form
      `StyleHeight` writes is accepted. */
  function ParseStyleHeight(s: string): (r: Option<Option<nat>>)
  {
    if s == "auto" then Some(None)
    else if |s| > 2 && s[|s| - 2..] == "px" && Canonical(s[..|s| - 2]) then
      Some(Some(DecimalValue(s[..|s| - 2])))
    else None
  }

  /** The style string determines the height it was rendered from. */
  lemma StyleHeightRoundTrip(height: Option<nat>)
    ensures ParseStyleHeight(StyleHeight(height)) == Some(height)
  {
    if height.Some? {
      var s := StyleHeight(height);
      DecimalRoundTrip(height.value);
      assert s[..|s| - 2] == Decimal(height.value);
    }
  }

  /** Conversely, every string the parser accepts is exactly the style of the
      height it reads, so the style string and the height state determine each
      other. */
  lemma ParseStyleHeightExact(s: string)
    requires ParseStyleHeight(s).Some?
    ensures StyleHeight(ParseStyleHeight(s).value) == s
  {
    if s != "auto" {
      var digits := s[..|s| - 2];
      DecimalOfValue(digits);
      assert s == digits + "px";
    }
  }

  // ---------------------------------------------------------------------------
  // Rendered attributes
  // ---------------------------------------------------------------------------

  const RotateClass: string := "transform rotate-180"

  datatype ItemMarkup = ItemMarkup(
    dataState: string,
    headerId: string,
    ariaExpanded: bool,
    ariaControls: string,
    ariaDisabled: bool,
    buttonDisabled: bool,
    cursorClass: string,
    chevronClass: string,
    panelId: string,
    ariaLabelledBy: string,
    styleHeight: string)

  /** The attributes of an item, from its id, whether it is expanded, whether
      it is disabled, and its height state. */
  function Markup(id: string, expanded: bool, disabled: bool, height: Option<nat>): (m: ItemMarkup)
    ensures m.dataState == "expanded" <==> expanded
    ensures m.dataState == "collapsed" <==> !expanded
    ensures m.ariaExpanded == expanded
    ensures m.ariaDisabled == disabled && m.buttonDisabled == disabled
    ensures m.headerId == HeaderId(id) && m.panelId == PanelId(id)
    ensures m.ariaControls == m.panelId && m.ariaLabelledBy == m.headerId
    ensures m.cursorClass == (if disabled then "cursor-not-allowed opacity-50" else "cursor-pointer")
    ensures m.headerId != m.panelId
    ensures m.chevronClass == RotateClass <==> expanded
    ensures ParseStyleHeight(m.styleHeight) == Some(height)
  {
    IdsAreUnambiguous(id, id);
    StyleHeightRoundTrip(height);
    ItemMarkup(
      dataState := if expanded then "expanded" else "collapsed",
      headerId := HeaderId(id),
      ariaExpanded := expanded,
      ariaControls := PanelId(id),
      ariaDisabled := disabled,
      buttonDisabled := disabled,
      cursorClass := if disabled then "cursor-not-allowed opacity-50" else "cursor-pointer",
      chevronClass := if expanded then RotateClass else "",
      panelId := PanelId(id),
      ariaLabelledBy := HeaderId(id),
      styleHeight := StyleHeight(height))
  }

  /** The height the effect sets when `expanded` changes: 0 when collapsing,
      the measured content height when expanding, unchanged when there is no
      content element to measure. */
  function HeightAfterEffect(height: Option<nat>, expanded: bool, measured: Option<nat>): (h: Option<nat>)
    ensures !expanded ==> h == Some(0)
    ensures expanded && measured.Some? ==> h == measured
    ensures expanded && measured.None? ==> h == height
  {
    if expanded then (if measured.Some? then measured else height) else Some(0)
  }

  // ---------------------------------------------------------------------------
  // The item
  // ---------------------------------------------------------------------------

  class AccordionItemView {
    const id: string
    const disabled: bool
    const store: AccordionStore
    /** `height` state: `undefined` until the effect first sets it. */
    var height: Option<nat>
    /** The value of `expanded` the effect last ran for; None before mount. */
    var committed: Option<bool>

    /** An omitted `disabled` prop means enabled. */
    constructor (id: string, disabled: Option<bool>, store: AccordionStore)
      ensures this.id == id && this.store == store
      ensures this.disabled == (disabled.Some? && disabled.value)
      ensures height == None && committed == None
    {
      this.id := id;
      this.disabled := disabled.Some? && disabled.value;
      this.store := store;
      height := None;
      committed := None;
    }

    function Expanded(): (b: bool)
      reads store
      ensures b <==> id in store.expandedItems
    {
      store.IsExpanded(id)
    }

    /** `handleToggle`: a disabled item swallows the activation; otherwise the
        store toggles this item's id once. */
    method HandleToggle()
      modifies store
      ensures disabled ==> store.expandedItems == old(store.expandedItems)
      ensures !disabled ==> store.expandedItems == Toggle(old(store.expandedItems), store.allowMultiple, id)
      ensures !disabled ==> (Expanded() <==> !old(Expanded()))
    {
      if !disabled {
        store.ToggleItem(id);
      }
    }

    /** The effect body, run for the current value of `expanded`; `measured`
        is the content element's `scrollHeight`, None when the element is absent. */
    method HeightEffect(measured: Option<nat>)
      modifies this`height
      ensures !Expanded() ==> height == Some(0)
      ensures Expanded() && measured.Some? ==> height == measured
      ensures Expanded() && measured.None? ==> height == old(height)
    {
      if Expanded() {
        if measured.Some? {
          height := measured;
        }
      } else {
        height := Some(0);
      }
    }

    /** After a render: the effect runs only when `expanded` differs from the
        value it last ran for (and on mount). */
    method AfterRender(measured: Option<nat>)
      modifies this`height, this`committed
      ensures committed == Some(Expanded())
      ensures old(committed) == Some(Expanded()) ==> height == old(height)
      ensures old(committed) != Some(Expanded()) ==> height == HeightAfterEffect(old(height), Expanded(), measured)
    {
      var expanded := store.IsExpanded(id);
      if committed != Some(expanded) {
        HeightEffect(measured);
        committed := Some(expanded);
      }
    }

    function Render(): (m: ItemMarkup)
      reads this, store
      ensures m.ariaExpanded == Expanded()
      ensures m.dataState == "expanded" <==> Expanded()
      ensures m.ariaControls == PanelId(id) && m.ariaLabelledBy == HeaderId(id)
    {
      Markup(id, store.IsExpanded(id), disabled, height)
    }
  }

  /** A client: a disabled item swallows the toggle; an enabled one under the
      single policy evicts its sibling and the effect then sets its height. */
  method DisabledAndEnabledItems()
  {
    var store := new AccordionStore(Some(["item-1"]), None);
    var locked := new AccordionItemView("item-2", Some(true), store);
    locked.HandleToggle();
    assert store.expandedItems == ["item-1"];

    var open := new AccordionItemView("item-3", None, store);
    open.AfterRender(Some(120));
    assert open.height == Some(0);
    open.HandleToggle();
    assert store.expandedItems == ["item-3"];
    open.AfterRender(Some(120));
    assert open.height == Some(120);
    assert open.Render().styleHeight == StyleHeight(Some(120));
  }
}
