# Storybook component state, modelled in Dafny

This project models the logic of a small React component library: the
accordion's expansion store and item controller, the top navigation bar's
menu state, and the light/dark theme provider. Each is a small sequential
state machine; the model states what each transition does and proves the
facts its rendering relies on.

- `AccordionContext` (`accordion_context.dfy`): the `AccordionProvider` store
  as a class holding the ordered list `expandedItems` and the fixed
  `allowMultiple` policy; `isExpanded`, `expandItem`, `collapseItem`,
  `toggleItem` and the `useAccordion` guard. The list operations (`includes`,
  `filter`) and the transitions are also given as functions, and the lemmas
  about ordering, duplicates and the single-expand bound are proved on them.
- `AccordionItem` (`accordion_item.dfy`): one item bound to a store; the
  disabled gate before `toggleItem`, the height effect (the measured
  `scrollHeight` is a parameter), and the derived `data-state`, `aria-*`,
  element ids, chevron class and inline height style.
- `ThemeContext` (`theme_context.dfy`): the mode, `toggleTheme`, `setTheme`,
  theme-object selection, the effect on the document root's class list
  (a `set<string>`), and the default context used outside a provider.
- `TopNavBar` (`top_nav_bar.dfy`): `mobileMenuOpen`, the shared
  `activeDropdown`, the desktop and mobile entries derived from them, the
  `href || '#'` fallback, the variant class and the theme button's label.
- `Wrappers` (`wrappers.dfy`): `Option` and `Result`.

The model follows the code as written: the expanded ids are a list, not a set; under the multiple policy
`expandItem` appends without checking membership, so a direct expand of an
expanded id duplicates it (`MultiExpandDuplicates`), and `collapseItem`
removes every occurrence (`CollapseAfterDuplicates`); the initial list is
not filtered against the single policy, so "at most one expanded" holds only
when the seed has at most one entry (`SingleRunBound`,
`SingleSeedNotFiltered`).

## Model

| member | source | states |
|---|---|---|
| AccordionContext.Includes | src/components/Accordion/AccordionContext.tsx:35-37 | the `includes` scan is true exactly when the id occurs in the list |
| AccordionContext.Without | src/components/Accordion/AccordionContext.tsx:56 | the filter leaves no occurrence of the id, does not grow the list and adds nothing new |
| AccordionContext.Expand | src/components/Accordion/AccordionContext.tsx:47-53 | after an expand the id is expanded; single policy: it is the only entry; multiple policy: it is appended and earlier entries keep their places |
| AccordionContext.Toggle | src/components/Accordion/AccordionContext.tsx:39-45 | `toggleItem(id)` flips whether `id` is expanded, under either policy |
| AccordionContext.AccordionStore.IsExpanded | src/components/Accordion/AccordionContext.tsx:35-37 | `isExpanded(id)` holds iff `id` is in `expandedItems` |
| AccordionContext.WithoutCounts | src/components/Accordion/AccordionContext.tsx:55-57 | the filter removes every occurrence of the id and keeps the count of every other id |
| AccordionContext.WithoutMembership | src/components/Accordion/AccordionContext.tsx:55-57 | after the filter an id is present iff it differs from the removed id and was present |
| AccordionContext.WithoutIsSubsequence | src/components/Accordion/AccordionContext.tsx:55-57 | the filtered list is a subsequence of the original: remaining ids keep their relative order |
| AccordionContext.WithoutDistributes | src/components/Accordion/AccordionContext.tsx:56 | filtering a concatenation is the concatenation of the filtered parts |
| AccordionContext.WithoutLength | src/components/Accordion/AccordionContext.tsx:56 | the filter shortens the list by exactly the number of occurrences removed |
| AccordionContext.WithoutIdempotent | src/components/Accordion/AccordionContext.tsx:55-57 | collapsing twice is the same as collapsing once |
| AccordionContext.WithoutAbsent | src/components/Accordion/AccordionContext.tsx:55-57 | collapsing an id that is not expanded leaves the list unchanged |
| AccordionContext.ToggleTwice | src/components/Accordion/AccordionContext.tsx:39-57 | two toggles of one id restore whether it is expanded |
| AccordionContext.MultiToggleKeepsOthers | src/components/Accordion/AccordionContext.tsx:39-57 | under the multiple policy a toggle does not change whether any other id is expanded |
| AccordionContext.MultiToggleKeepsDistinct | src/components/Accordion/AccordionContext.tsx:39-57 | under the multiple policy a toggle never introduces a duplicate into a duplicate-free list |
| AccordionContext.MultiExpandDuplicates | src/components/Accordion/AccordionContext.tsx:47-49 | under the multiple policy a direct expand of an expanded id adds a second occurrence |
| AccordionContext.CollapseAfterDuplicates | src/components/Accordion/AccordionContext.tsx:47-57 | one collapse removes an id however many times it was appended |
| AccordionContext.MultiExpandBoth | src/components/Accordion/AccordionContext.tsx:47-49 | under the multiple policy expanding `a` then `b` leaves both expanded |
| AccordionContext.SingleStepBound | src/components/Accordion/AccordionContext.tsx:47-57 | under the single policy, a call on a list of at most one entry leaves at most one entry, and an expand leaves exactly `[id]` |
| AccordionContext.SingleRunBound | src/components/Accordion/AccordionContext.tsx:33-57 | under the single policy every sequence of calls keeps the list at most one long when the seed was |
| AccordionContext.SingleSeedNotFiltered | src/components/Accordion/AccordionContext.tsx:30-33 | a two-id seed under the single policy survives a collapse of a third id with both entries |
| AccordionContext.AccordionStore.constructor | src/components/Accordion/AccordionContext.tsx:28-33 | the initial list is the seed as given, unfiltered (empty when omitted); the policy is fixed and single when omitted |
| AccordionContext.AccordionStore.ExpandItem | src/components/Accordion/AccordionContext.tsx:47-53 | multiple policy: the old list with `id` appended; single policy: exactly `[id]` |
| AccordionContext.AccordionStore.CollapseItem | src/components/Accordion/AccordionContext.tsx:55-57 | the list is filtered: `id` is no longer expanded, every other id is as it was, the list does not grow |
| AccordionContext.AccordionStore.ToggleItem | src/components/Accordion/AccordionContext.tsx:39-45 | collapse when expanded, else the policy-aware expand; whether `id` is expanded flips |
| AccordionContext.UseAccordion | src/components/Accordion/AccordionContext.tsx:14-20 | fails with the provider error exactly when there is no enclosing store, else returns it |
| AccordionItem.HeaderId | src/components/Accordion/AccordionItem.tsx:55 | the header id is the `accordion-header-` prefix followed by the item id, which can be read back from it |
| AccordionItem.PanelId | src/components/Accordion/AccordionItem.tsx:86 | the panel id is the `accordion-panel-` prefix followed by the item id, which can be read back from it |
| AccordionItem.IdsAreUnambiguous | src/components/Accordion/AccordionItem.tsx:55-58 | header and panel ids determine the item id, and no header id equals a panel id |
| AccordionItem.DecimalRoundTrip | src/components/Accordion/AccordionItem.tsx:90 | a height written in decimal is a non-empty digit string without leading zeros that reads back as the same number |
| AccordionItem.DecimalOfValue | src/components/Accordion/AccordionItem.tsx:90 | every digit string without leading zeros is exactly how its value is written |
| AccordionItem.StyleHeight | src/components/Accordion/AccordionItem.tsx:90 | the style is `'auto'` exactly while the height is undefined, and otherwise ends in `px` |
| AccordionItem.StyleHeightRoundTrip | src/components/Accordion/AccordionItem.tsx:90 | the inline height (`'auto'` or `"<n>px"`) determines the height state it was rendered from |
| AccordionItem.ParseStyleHeightExact | src/components/Accordion/AccordionItem.tsx:90 | every string read back as a height is exactly the style of that height, so style and height state determine each other |
| AccordionItem.Markup | src/components/Accordion/AccordionItem.tsx:51-90 | `data-state` is `expanded`/`collapsed` by the expanded flag; the header id is `HeaderId(id)` and the panel id `PanelId(id)`; the cursor class is the disabled or pointer fragment by `disabled`; `aria-expanded` and `aria-disabled` mirror their inputs; `aria-controls` is the panel id and `aria-labelledby` the header id; the chevron rotates iff expanded; the style encodes the height |
| AccordionItem.HeightAfterEffect | src/components/Accordion/AccordionItem.tsx:31-40 | the height after the effect: 0 when collapsed, the measurement when expanded and measured, unchanged otherwise |
| AccordionItem.AccordionItemView.constructor | src/components/Accordion/AccordionItem.tsx:18-28 | the item is enabled when `disabled` is omitted, and the height starts undefined |
| AccordionItem.AccordionItemView.Expanded | src/components/Accordion/AccordionItem.tsx:29 | the item is expanded iff its id is in the store's list |
| AccordionItem.AccordionItemView.HandleToggle | src/components/Accordion/AccordionItem.tsx:42-46 | a disabled item leaves the store unchanged; otherwise the store's list is toggled once for this id |
| AccordionItem.AccordionItemView.HeightEffect | src/components/Accordion/AccordionItem.tsx:31-40 | when collapsed the height becomes 0; when expanded it becomes the measured height, or stays as it was when there is no content element |
| AccordionItem.AccordionItemView.AfterRender | src/components/Accordion/AccordionItem.tsx:31-40 | the effect runs only when `expanded` changed since it last ran (or on mount) |
| AccordionItem.AccordionItemView.Render | src/components/Accordion/AccordionItem.tsx:29-90 | the rendered `aria-expanded` and `data-state` agree with the store at every render, and the ids cross-reference |
| ThemeContext.ThemeFor | src/design-system/theme/ThemeContext.tsx:34 | the light theme object exactly for light mode, the dark one exactly for dark mode |
| ThemeContext.Flip | src/design-system/theme/ThemeContext.tsx:49 | toggling yields the other mode |
| ThemeContext.FlipInvolution | src/design-system/theme/ThemeContext.tsx:48-50 | toggling changes the mode, and toggling twice is the identity |
| ThemeContext.ThemeForInjective | src/design-system/theme/ThemeContext.tsx:34 | the selected theme object tells the two modes apart |
| ThemeContext.ApplyModeClass | src/design-system/theme/ThemeContext.tsx:37-42 | after the effect the root has `dark` iff the mode is dark, and no other class changed |
| ThemeContext.ApplyModeClassIdempotent | src/design-system/theme/ThemeContext.tsx:37-42 | running the class effect twice for one mode is the same as once |
| ThemeContext.ThemeProvider.constructor | src/design-system/theme/ThemeContext.tsx:29-34 | the mode is `defaultTheme`, light when omitted, and the theme object matches it |
| ThemeContext.ThemeProvider.ToggleTheme | src/design-system/theme/ThemeContext.tsx:48-50 | light becomes dark and dark becomes light |
| ThemeContext.ThemeProvider.SetTheme | src/design-system/theme/ThemeContext.tsx:52-54 | the mode becomes exactly the given one (so repeating it changes nothing) |
| ThemeContext.ThemeProvider.ModeEffect | src/design-system/theme/ThemeContext.tsx:36-46 | the root has `dark` iff the mode is dark, other classes are untouched, and the theme object matches the mode |
| ThemeContext.ModeOf | src/design-system/theme/ThemeContext.tsx:13-22 | outside a provider the mode is light |
| ThemeContext.ThemeOf | src/design-system/theme/ThemeContext.tsx:13-22 | outside a provider the theme object is the light one |
| ThemeContext.ToggleVia | src/design-system/theme/ThemeContext.tsx:13-18 | `toggleTheme` flips a provider's mode, leaving its theme object for the effect to update, and is a no-op on the default context |
| ThemeContext.SetVia | src/design-system/theme/ThemeContext.tsx:13-18 | `setTheme` assigns a provider's mode, leaving its theme object for the effect to update, and is a no-op on the default context |
| TopNavBar.Href | src/components/TopNavBar/TopNavBar.tsx:104 | a link's href is the item's href when present and non-empty, otherwise `'#'` (also lines 124, 236, 254) |
| TopNavBar.NavClass | src/components/TopNavBar/TopNavBar.tsx:45-53 | the bar's class is `bg-transparent` exactly for the transparent variant |
| TopNavBar.NavClassInjective | src/components/TopNavBar/TopNavBar.tsx:45-53 | the two variants give different bar classes |
| TopNavBar.ThemeButtonLabel | src/components/TopNavBar/TopNavBar.tsx:160 | the label is "Switch to dark theme" iff the mode is light and "Switch to light theme" iff dark |
| TopNavBar.ThemeButtonLabelNamesNext | src/components/TopNavBar/TopNavBar.tsx:159-160 | the label names the mode that toggling leads to |
| TopNavBar.NextDropdown | src/components/TopNavBar/TopNavBar.tsx:37-43 | the active dropdown closes when its own trigger is clicked and otherwise becomes the clicked one |
| TopNavBar.ToggleDropdownTwice | src/components/TopNavBar/TopNavBar.tsx:37-43 | clicking a closed dropdown's trigger twice leaves no dropdown open |
| TopNavBar.SubLink | src/components/TopNavBar/TopNavBar.tsx:101-116 | a dropdown link carries the sub-item's id, label and fallback href; only the desktop menu gives it the `menuitem` role |
| TopNavBar.Entries | src/components/TopNavBar/TopNavBar.tsx:68-137 | one entry per item, in order: a dropdown for the item's id exactly when it has sub-items |
| TopNavBar.Entry | src/components/TopNavBar/TopNavBar.tsx:68-136 | for an item with sub-items, `aria-expanded`, the chevron rotation and menu visibility all equal `activeDropdown == item.id`; every link's href is the fallback href |
| TopNavBar.AtMostOneMenuOpen | src/components/TopNavBar/TopNavBar.tsx:94 | with distinct item ids no two dropdown menus are visible at once |
| TopNavBar.DesktopAndMobileAgree | src/components/TopNavBar/TopNavBar.tsx:205-254 | both menus render the shared dropdown state alike: same expanded flags, chevrons and visible menus, and the same hrefs for plain links and for every dropdown link |
| TopNavBar.NavBar.constructor | src/components/TopNavBar/TopNavBar.tsx:21-30 | the mobile menu starts closed and no dropdown is open; the variant defaults to solid and the theme toggle to shown |
| TopNavBar.NavBar.ToggleMobileMenu | src/components/TopNavBar/TopNavBar.tsx:33-35 | negates `mobileMenuOpen` and leaves `activeDropdown` untouched |
| TopNavBar.NavBar.ToggleDropdown | src/components/TopNavBar/TopNavBar.tsx:37-43 | closes the active dropdown or replaces it with the clicked one; the mobile flag is untouched |
| TopNavBar.NavBar.ClickThemeButton | src/components/TopNavBar/TopNavBar.tsx:159-160 | the label shown before the click names the mode a provider is switched to; the provider's theme object waits for the effect |
| TopNavBar.NavBar.Render | src/components/TopNavBar/TopNavBar.tsx:45-277 | the variant class, both menus from the shared state, the mobile menu shown iff open, and the theme button shown iff enabled with its label |

## Left out

- `AccordionItem.Decimal`: heights are non-negative integers written in plain decimal; from 10^21 on JavaScript writes numbers in exponent notation, which the model does not follow (a measured `scrollHeight` never comes near it).
- DOM measurement: `scrollHeight` is a parameter of the height effect (None when the content element is absent); `document.documentElement` is a `RootElement` holding only its class set.
- React rendering, hooks and context mechanics: every state update is applied at once to the current state, in the order issued; render-time closures over stale state are not modelled.
- Tailwind class strings and static attributes: only the conditional fragments (chevron rotation, disabled cursor, navbar variant) are modelled; fixed attributes such as the desktop trigger's `aria-haspopup="true"`, `role="menu"` and `aria-orientation` are not.
- Icons (`lucide-react`), `logo`, `rightItems`, `className` props and the `key` attributes apart from link keys.
- The theme objects' token tables (`lightTheme`, `darkTheme`) are abstract values; the tokens, stories, `App.tsx` and the `Accordion` wrapper carry no logic.
- `AccordionItem.AccordionItemView`: `disabled` is fixed per item; a change of the prop between renders is not modelled.
- `TopNavBar.NavItem`: the field `label` is called `text`, a reserved word in Dafny.
