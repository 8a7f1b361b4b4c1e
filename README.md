# Sidebar categories organizer

A model of the Discourse theme component that replaces the stock "Categories" section of
the sidebar with up to ten administrator-defined sections plus an "Other Categories"
bucket, and lets the viewer swap between that custom view and the stock section.

The model has two parts.

- **The builder** (`buildCustomCategoriesView`).
  - It filters the site's categories by what the viewer may see.
  - For each section index 1 to 10 it splits the section's comma-separated slug setting, trims every entry and resolves it to the first accessible category with that slug.
  - It skips disabled, blank and unresolvable sections.
  - It records every slug a section claims, including the slugs of the subcategories it lists when subcategory expansion is on.
  - All top-level categories whose slug was never claimed go into the ungrouped bucket, each with all of its subcategories.
  - Links keep the host's path scheme (`/c/<slug>/<id>`, `/c/<parent-slug>/<sub-slug>/<sub-id>`) as a structured value.
  - `ViewBuilder.BuildView` states what the builder returns. `ViewBuilder.BuildCustomCategoriesView` is the loop itself, proved to return exactly that.
- **The page** (`getUserPreference`, `saveUserPreference`, the section `toggle` listener, `toggleView`, `initializeSidebar`, the mutation observer's callback).
  - The sidebar's section list is a sequence of nodes: the stock categories section, custom views and other sections. `localStorage` is a `map<string, string>`, and toggle buttons are a count.
  - `Synchronizer.Sidebar` is a class over that state. Each handler is a method whose new state is given by a transition function (`Initialized`, `Toggled`, `SectionToggled`, `Observed`).
  - The lemmas about those functions prove the following:
    - at most one custom view and at most one toggle button;
    - while both views are on the page, exactly one of them is visible (after a rebuild without categories only the stock section is left, and it may be hidden: see "## Findings");
    - preferences persist across rebuilds;
    - rebuilding is idempotent.

Modules follow that split:
- `Seqs` and `Text` hold generic sequence and string operations;
- `Categories` and `Preferences` hold the category records and the storage keys;
- `ViewBuilder` and `ViewProperties` hold the builder and what is proved about it;
- `SlugGrouping` holds the consequences of grouping by slug;
- `Synchronizer` holds the page.

Grouping is keyed by slug, not by category.
- When accessible slugs are unique, every accessible top-level category is either linked from a section or listed as ungrouped, never both (`SlugGrouping.CoverageByCategory`).
- When a section claims a top-level category's slug without listing that category itself (for instance through a subcategory that shares the slug), the category appears nowhere (`SlugGrouping.ClaimedSlugHidesCategory`). `SlugGrouping.SlugCollisionHidesCategory` is a three-category instance.

Other behaviours of the code that the model keeps as written:
- Nothing stops two sections from listing the same category (lines 57-64 never consult the grouped set), so one category can be linked from several sections.
- The toggle button is appended inside the stock categories section's header (lines 317-352). While the custom view is shown that section is hidden, and the button with it; the model keeps no layout, so `Toggled` is defined whether or not the button can be reached.
- Assigning `open` to a section's `details` element (line 77) makes the browser fire that element's `toggle` event, so a section rendered open soon stores "open". The model calls the listener (`SectionToggled`) only where a toggle is given to it explicitly.

`javascripts/discourse/api-initializers/sidebar-organizer.js` is the only source file modelled.

## Model

| member | source | states |
|---|---|---|
| Categories.Accessible | javascripts/discourse/api-initializers/sidebar-organizer.js:31-35 | a guest keeps exactly the categories that are not read-restricted; a signed-in user keeps every category, in order |
| Categories.FindBySlug | javascripts/discourse/api-initializers/sidebar-organizer.js:58 | a found category has the slug and is accessible, and nothing is found exactly when no accessible category has that slug |
| Categories.FindBySlugIsFirst | javascripts/discourse/api-initializers/sidebar-organizer.js:58 | the category found sits at a position no earlier category with that slug precedes: it is the first match |
| Categories.Resolve | javascripts/discourse/api-initializers/sidebar-organizer.js:57-59 | each entry yields at most one category, and every resolved category comes from the list searched and has the slug of some entry |
| Categories.Lookup | javascripts/discourse/api-initializers/sidebar-organizer.js:58-59 | one entry yields at most one category, taken from the list searched and carrying the entry as its slug |
| Categories.ResolveMembers | javascripts/discourse/api-initializers/sidebar-organizer.js:57-59 | every entry that names a category contributes that category, and each resolved category is the lookup result of some entry |
| Categories.ResolveAppend | javascripts/discourse/api-initializers/sidebar-organizer.js:57-59 | resolution works entry by entry, so entry order is kept and misses are dropped without disturbing the rest |
| Categories.ResolveEmpty | javascripts/discourse/api-initializers/sidebar-organizer.js:57-61 | a section resolves to nothing exactly when no entry is the slug of an accessible category |
| Categories.ChildrenOf | javascripts/discourse/api-initializers/sidebar-organizer.js:118-120 | the listed subcategories are exactly the accessible categories whose parent id is the category's id |
| Text.TrimFacts | javascripts/discourse/api-initializers/sidebar-organizer.js:53-56 | trimming drops exactly the leading and trailing whitespace and leaves a contiguous middle; the result is empty exactly when the string is all whitespace |
| Text.TrimIdempotent | javascripts/discourse/api-initializers/sidebar-organizer.js:56 | trimming a trimmed entry changes nothing |
| Text.SplitFacts | javascripts/discourse/api-initializers/sidebar-organizer.js:56 | no part of a comma split holds a comma, and joining the parts with commas gives the setting back |
| Text.SplitJoin | javascripts/discourse/api-initializers/sidebar-organizer.js:56 | splitting a comma-joined list of comma-free entries gives the entries back |
| Text.NatToStringInjective | javascripts/discourse/api-initializers/sidebar-organizer.js:67 | different section indices render as different decimal strings |
| Preferences.UserPreference | javascripts/discourse/api-initializers/sidebar-organizer.js:10-12 | a non-empty stored preference wins; anything else read is the configured default, and the result is empty only when that default is |
| Preferences.SaveUserPreference | javascripts/discourse/api-initializers/sidebar-organizer.js:15-17 | the preference is stored under the view-preference key and every other key keeps its value |
| Preferences.SectionOpen | javascripts/discourse/api-initializers/sidebar-organizer.js:67-68 | with no stored state the section opens as configured; with one stored, it opens exactly when the stored value is "open", so any other stored value closes it |
| Preferences.SaveSectionState | javascripts/discourse/api-initializers/sidebar-organizer.js:80-83 | the section's key then holds "open" or "closed" according to the new state, and every other key keeps its value |
| Preferences.SectionStateKeyInjective | javascripts/discourse/api-initializers/sidebar-organizer.js:67-82 | distinct sections store their open state under distinct keys |
| Preferences.SectionStateKeyIsNotViewKey | javascripts/discourse/api-initializers/sidebar-organizer.js:11-67 | no section-state key collides with the view-preference key |
| Preferences.SavedPreferenceIsRead | javascripts/discourse/api-initializers/sidebar-organizer.js:10-17 | a saved non-empty preference is what the next read returns, whatever the configured default |
| Preferences.SectionStateIsRead | javascripts/discourse/api-initializers/sidebar-organizer.js:67-83 | after a toggle event, section `i` reopens in the toggled state whatever its default; every other section's state, the view preference and every other key are unchanged |
| ViewBuilder.BuildCustomCategoriesView | javascripts/discourse/api-initializers/sidebar-organizer.js:20-228 | the loop over indices 1 to 10 returns exactly the specified view, and returns nothing only when the categories are not loaded |
| ViewBuilder.BuildSections | javascripts/discourse/api-initializers/sidebar-organizer.js:45-153 | the loop over section indices builds exactly the specified sections in index order and the grouped set they claim |
| ViewBuilder.NextSection | javascripts/discourse/api-initializers/sidebar-organizer.js:46-152 | one more index extends the sections and the grouped set exactly as the specification of the next index says |
| ViewBuilder.BuildSection | javascripts/discourse/api-initializers/sidebar-organizer.js:46-123 | one pass of the loop yields the specified section (or none) and adds precisely that section's claimed slugs to the grouped set |
| ViewBuilder.RenderSection | javascripts/discourse/api-initializers/sidebar-organizer.js:64-152 | a section with categories is rendered with its index, title, open state and links, and claims its categories' slugs and, with expansion on, their subcategories' slugs |
| ViewBuilder.ClaimSlugs | javascripts/discourse/api-initializers/sidebar-organizer.js:64 | the grouped set gains exactly the slugs of the section's categories |
| ViewBuilder.BuildSectionLinks | javascripts/discourse/api-initializers/sidebar-organizer.js:94-147 | the links loop produces the specified link list and claims exactly the listed subcategories' slugs when expansion is on, none otherwise |
| ViewBuilder.AddCategory | javascripts/discourse/api-initializers/sidebar-organizer.js:95-146 | one category appends its own link then its subcategory links, and claims the subcategories' slugs only with expansion on |
| ViewBuilder.AddSubcategories | javascripts/discourse/api-initializers/sidebar-organizer.js:122-145 | the subcategory loop appends one link per subcategory in order and claims each subcategory's slug |
| ViewBuilder.BuildUngroupedLinks | javascripts/discourse/api-initializers/sidebar-organizer.js:170-222 | the ungrouped loop lists every ungrouped category followed by all its subcategories |
| ViewBuilder.BuildUngrouped | javascripts/discourse/api-initializers/sidebar-organizer.js:156-225 | the bucket is left out when no accessible top-level category is ungrouped, and otherwise lists every ungrouped category with its subcategories |
| ViewBuilder.AddUngroupedCategory | javascripts/discourse/api-initializers/sidebar-organizer.js:170-221 | one ungrouped category appends its own link then all its subcategory links |
| ViewBuilder.AppendSubLinks | javascripts/discourse/api-initializers/sidebar-organizer.js:199-220 | an ungrouped category's subcategory links are appended in order, with no check against the grouped set |
| ViewBuilder.Ungrouped | javascripts/discourse/api-initializers/sidebar-organizer.js:156-158 | the bucket's categories are exactly the accessible top-level categories whose slug is not grouped |
| ViewBuilder.BuildView | javascripts/discourse/api-initializers/sidebar-organizer.js:20-228 | no view exists exactly while the categories are not loaded, and a built view never carries an empty bucket |
| ViewProperties.SectionSkipRule | javascripts/discourse/api-initializers/sidebar-organizer.js:45-68 | section `i` is skipped exactly when it is disabled, its setting is missing or blank, or no trimmed entry names an accessible category; a kept section carries its index, title, stored-or-default open state and a non-empty link list |
| ViewProperties.SectionsRendered | javascripts/discourse/api-initializers/sidebar-organizer.js:45-153 | every section of the view has an index between 1 and 10 and is the one rendered for that index |
| ViewProperties.SectionsComplete | javascripts/discourse/api-initializers/sidebar-organizer.js:45-153 | every index that is not skipped has its section in the view |
| ViewProperties.SectionsInIndexOrder | javascripts/discourse/api-initializers/sidebar-organizer.js:45-152 | sections appear in strictly increasing index order |
| ViewProperties.ClaimsAreLinked | javascripts/discourse/api-initializers/sidebar-organizer.js:64-147 | the slugs a section claims are exactly the slugs of the links it renders |
| ViewProperties.BlockClaims | javascripts/discourse/api-initializers/sidebar-organizer.js:94-147 | the links one listed category contributes name that category and, with expansion on, exactly its accessible subcategories |
| ViewProperties.GroupedIsLinked | javascripts/discourse/api-initializers/sidebar-organizer.js:42-153 | the grouped set after the loop is exactly the set of slugs linked from the sections |
| ViewProperties.LinkOrigin | javascripts/discourse/api-initializers/sidebar-organizer.js:94-147 | a top-level link is `/c/<slug>/<id>` of a listed category; a subcategory link exists only with expansion on and is `/c/<parent-slug>/<sub-slug>/<sub-id>` for an accessible child of a listed category |
| ViewProperties.ListedCategoryIsLinked | javascripts/discourse/api-initializers/sidebar-organizer.js:94-147 | every listed category gets its link and, with expansion on, every accessible child gets its subcategory link |
| ViewProperties.SubLinkFollowsParent | javascripts/discourse/api-initializers/sidebar-organizer.js:114-145 | each subcategory link comes after its parent's own link, with only links of the same parent in between |
| ViewProperties.Coverage | javascripts/discourse/api-initializers/sidebar-organizer.js:156-158 | an accessible top-level category is in the ungrouped bucket exactly when its slug is linked from no section |
| ViewProperties.UngroupedBucket | javascripts/discourse/api-initializers/sidebar-organizer.js:156-222 | the bucket is emitted exactly when some accessible top-level category is ungrouped, and lists every accessible subcategory of every ungrouped category |
| ViewProperties.PlanAccessible | javascripts/discourse/api-initializers/sidebar-organizer.js:57-59 | sections only ever list accessible categories |
| ViewProperties.LinksStayInside | javascripts/discourse/api-initializers/sidebar-organizer.js:94-147 | every link names a category of the accessible list |
| ViewProperties.SectionLinksInside | javascripts/discourse/api-initializers/sidebar-organizer.js:45-153 | every section link names an accessible category |
| ViewProperties.GuestSeesNoRestricted | javascripts/discourse/api-initializers/sidebar-organizer.js:31-201 | a guest is never shown a link, in a section or in the bucket, to a read-restricted category |
| SlugGrouping.CoverageByCategory | javascripts/discourse/api-initializers/sidebar-organizer.js:64-158 | with unique slugs, an accessible top-level category is linked from a section exactly when it is not listed as ungrouped |
| SlugGrouping.ClaimedSlugHidesCategory | javascripts/discourse/api-initializers/sidebar-organizer.js:64-158 | a top-level category whose slug a section claims, while no listed category or listed subcategory has its id, is neither linked from a section nor listed as ungrouped |
| SlugGrouping.SlugCollisionHidesCategory | javascripts/discourse/api-initializers/sidebar-organizer.js:64-158 | worked example: with categories "a" (listed, with subcategories shown), its subcategory "g" and an unrelated top-level "g", the top-level "g" is neither linked from a section nor listed as ungrouped |
| SlugGrouping.GroupedGrows | javascripts/discourse/api-initializers/sidebar-organizer.js:42-123 | the grouped set only grows as the loop proceeds |
| SlugGrouping.SectionLinksAvoid | javascripts/discourse/api-initializers/sidebar-organizer.js:94-147 | when no planned category, and no subcategory of one, has the id of `x`, no section link points at `x` |
| Synchronizer.RemovalKeepsDefault | javascripts/discourse/api-initializers/sidebar-organizer.js:287-290 | removing the old custom view keeps the default section, and leaves no custom view when there was at most one |
| Synchronizer.Initialized | javascripts/discourse/api-initializers/sidebar-organizer.js:280-355 | initialization never writes the store, and leaves the page untouched without the sidebar or the stock section |
| Synchronizer.Inserted | javascripts/discourse/api-initializers/sidebar-organizer.js:297-354 | insertion adds exactly one node, leaves the store alone, and with the button disabled touches neither header nor buttons |
| Synchronizer.Toggled | javascripts/discourse/api-initializers/sidebar-organizer.js:231-246 | a toggle keeps the number of nodes, the header and the button count |
| Synchronizer.SectionToggled | javascripts/discourse/api-initializers/sidebar-organizer.js:80-83 | a section toggle leaves the page's nodes, header and buttons alone, and section `i` then reads back as toggled whatever its default |
| Synchronizer.Observed | javascripts/discourse/api-initializers/sidebar-organizer.js:257-265 | the observer changes nothing while the sidebar is hidden or a custom view exists, and never writes the store |
| Synchronizer.InsertionShape | javascripts/discourse/api-initializers/sidebar-organizer.js:297 | the new view sits immediately after the default section and is the only custom view |
| Synchronizer.ReinsertNodes | javascripts/discourse/api-initializers/sidebar-organizer.js:287-297 | removing the inserted view finds the default section where it was, and inserting the same nodes there again gives the same list |
| Synchronizer.InsertedShowsOneView | javascripts/discourse/api-initializers/sidebar-organizer.js:297-354 | after insertion exactly one custom view exists right after the default section, exactly one of the two is visible, the custom one iff the preference is "custom", and with the button enabled exactly one button exists on a header |
| Synchronizer.InitializeShowsOneView | javascripts/discourse/api-initializers/sidebar-organizer.js:280-355 | with both anchors present and categories loaded, initialization leaves one custom view holding the built view right after the default section, with visibility given by the stored-or-default preference |
| Synchronizer.InitializeWithoutCategories | javascripts/discourse/api-initializers/sidebar-organizer.js:287-294 | when the categories are not loaded, the section list is the old one with its custom view removed, and nothing else on the page changes |
| Synchronizer.MissingCategoriesHideBothViews | javascripts/discourse/api-initializers/sidebar-organizer.js:287-294 | from a valid page showing the custom view, initializing without categories leaves only the hidden stock section, so no category view is visible |
| Synchronizer.InitializedShowingDefaultShowsAView | javascripts/discourse/api-initializers/sidebar-organizer.js:287-294 | the corrected initialization keeps the page valid and always leaves one of the two category views visible |
| Synchronizer.InitializeKeepsValid | javascripts/discourse/api-initializers/sidebar-organizer.js:280-355 | initialization keeps at most one view, at most one button and exclusive visibility, and does nothing without both anchors |
| Synchronizer.InsertedAgain | javascripts/discourse/api-initializers/sidebar-organizer.js:287-354 | removing and re-inserting the same view gives back the same page |
| Synchronizer.InitializeIdempotent | javascripts/discourse/api-initializers/sidebar-organizer.js:280-355 | initializing twice with unchanged inputs is the same as initializing once |
| Synchronizer.ToggleFlips | javascripts/discourse/api-initializers/sidebar-organizer.js:231-246 | the toggle flips the custom view's visibility, makes the default section the opposite, changes no other node and saves the preference naming the now-visible view |
| Synchronizer.UpdatesKeepPositions | javascripts/discourse/api-initializers/sidebar-organizer.js:237-245 | changing the two views' display leaves where both are found, and the view count, unchanged |
| Synchronizer.ToggleNeedsBothViews | javascripts/discourse/api-initializers/sidebar-organizer.js:235 | without both views the toggle does nothing |
| Synchronizer.ToggleKeepsValid | javascripts/discourse/api-initializers/sidebar-organizer.js:231-246 | the toggle keeps at most one view, at most one button and exclusive visibility |
| Synchronizer.ToggleTwice | javascripts/discourse/api-initializers/sidebar-organizer.js:231-246 | with both views present, toggling twice restores whether the custom view is shown |
| Synchronizer.ToggleSurvivesRebuild | javascripts/discourse/api-initializers/sidebar-organizer.js:240-307 | after a toggle, a rebuild shows the view the toggle chose |
| Synchronizer.SectionStateSurvivesRebuild | javascripts/discourse/api-initializers/sidebar-organizer.js:67-293 | after a section toggle event, the rebuilt view opens that section in the toggled state, and the view preference is unchanged |
| Synchronizer.SectionToggleKeepsValid | javascripts/discourse/api-initializers/sidebar-organizer.js:80-83 | a section toggle event keeps the page valid and changes no node |
| Synchronizer.ObserverRestoresView | javascripts/discourse/api-initializers/sidebar-organizer.js:256-266 | the observer keeps the page valid, does nothing while a custom view exists, and restores exactly one view when the sidebar is visible and the categories are loaded |
| Synchronizer.FreshIsValid | javascripts/discourse/api-initializers/sidebar-organizer.js:280-355 | a page the organizer has not touched yet satisfies the invariant its handlers keep |
| Synchronizer.Sidebar.SaveUserPreference | javascripts/discourse/api-initializers/sidebar-organizer.js:15-17 | stores the preference under the view-preference key and changes nothing else |
| Synchronizer.Sidebar.InitializeSidebar | javascripts/discourse/api-initializers/sidebar-organizer.js:280-355 | the handler's new page is the initialization transition of the old one |
| Synchronizer.Sidebar.InsertView | javascripts/discourse/api-initializers/sidebar-organizer.js:297-354 | the insertion, preference and button steps produce the specified page |
| Synchronizer.Sidebar.ToggleView | javascripts/discourse/api-initializers/sidebar-organizer.js:231-246 | the click handler's new page is the toggle transition of the old one |
| Synchronizer.Sidebar.OnSectionToggle | javascripts/discourse/api-initializers/sidebar-organizer.js:80-83 | the listener records the section's new state and changes nothing else |
| Synchronizer.Sidebar.OnSidebarMutation | javascripts/discourse/api-initializers/sidebar-organizer.js:257-265 | the observer callback reinitializes only when the sidebar is visible and no custom view exists |

## Left out

- The feature gate `settings.enable_sidebar_organizer` (line 5). When it is off nothing runs, so there is nothing to model.
- `api.onPageChange`, `schedule("afterRender")` and registering the `MutationObserver` (lines 249-253, 256-277). The handlers are modelled as methods called directly; event delivery and run-loop deferral are not modelled.
- `sidebar.offsetParent !== null` (line 259) depends on live layout. It is the parameter `visible`.
- `api.container.lookup` and `api.getCurrentUser` (lines 21-28) are calls into the host. They are the parameters `categories`, which is `None` while the categories are not loaded, and `userPresent`.
- Presentation is not modelled:
  - CSS classes, inline styles, `innerHTML`, the emoji, the button title, the "Other Categories" and "Categories" captions and badge colours;
  - the section title is kept as a string, without HTML interpretation.
  - A link keeps only whether it has a badge.
- Links keep their path as a structured value. The href string that interpolates the id is not built.
- The header lookup chain (lines 317-337) is reduced to three states: section header, header wrapper, or none. With none, a wrapper is created. The button is attached to whichever exists.
- `document` is reduced to the sidebar's section list. `getElementById` and `querySelector` find the first matching node in that list. Where in the document the list sits, and nodes outside it, are not modelled.
- `console.log` (line 23) is not modelled.
- Click-event suppression (`preventDefault`, `stopPropagation`, lines 347-348) is not modelled.
- Section membership is only the comma-separated slug setting `section_<i>_categories` (line 50). No setting hides categories, the grouped set holds slugs rather than category ids, and the toggle button always goes on the stock categories section's header (lines 317-352).
- Synchronizer.Sidebar.InitializeSidebar, InsertView, ToggleView, OnSectionToggle and OnSidebarMutation state their new page through the transition functions. Mutual exclusion, the at-most-one bounds and idempotence are stated by the `Synchronizer` lemmas about those functions, not by the methods' own contracts.

## Findings

| source | as written | input that shows it | evidently intended | confidence | as-written member | corrected member |
|---|---|---|---|---|---|---|
| javascripts/discourse/api-initializers/sidebar-organizer.js:287-294 | the old custom view is removed before the new one is built, and when none can be built the function returns without touching the stock section's `display` | a page with the custom view shown and the stock section hidden, then a rebuild while the categories are not loaded | when no custom view can be shown, the stock section is shown again | low, not executed (the state lasts until the categories load) | Synchronizer.MissingCategoriesHideBothViews | Synchronizer.InitializedShowingDefaultShowsAView |

`Synchronizer.InitializedShowingDefault` is the corrected transition: it also shows the stock section again when no custom view is built. `Synchronizer.Initialized` and the `Sidebar` class keep the code as written, so the lemmas in "## Model" describe the code's own behaviour.
