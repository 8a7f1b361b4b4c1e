/** The durable key/value store (`localStorage`) and the preferences kept in it: the chosen
    view under `sidebar-view-preference` and one open/closed state per section under
    `sidebar-section-<i>-state`. */
module Preferences {
  import opened Text

  type Store = map<string, string>

  const ViewPreferenceKey: string := "sidebar-view-preference"

  /** The two fixed parts of a section-state key around the section number. */
  const SectionKeyPrefix: string := "sidebar-section-"
  const SectionKeySuffix: string := "-state"

  /** The two values the section listener stores. */
  const OpenState: string := "open"
  const ClosedState: string := "closed"

  function SectionStateKey(i: nat): (key: string) {
    SectionKeyPrefix + NatToString(i) + SectionKeySuffix
  }

  /** `localStorage.getItem(key) || settings.default_view`: a missing or empty stored value
      falls back to the configured default. */
  function UserPreference(store: Store, defaultView: string): (r: string)
    ensures ViewPreferenceKey in store && store[ViewPreferenceKey] != "" ==> r == store[ViewPreferenceKey]
    ensures r != defaultView ==> ViewPreferenceKey in store && r == store[ViewPreferenceKey]
    ensures r == "" ==> defaultView == ""
  {
    if ViewPreferenceKey in store && store[ViewPreferenceKey] != "" then store[ViewPreferenceKey]
    else defaultView
  }

  /** `localStorage.setItem("sidebar-view-preference", preference)`. */
  function SaveUserPreference(store: Store, preference: string): (r: Store)
    ensures ViewPreferenceKey in r && r[ViewPreferenceKey] == preference
    ensures forall key :: key != ViewPreferenceKey ==>
              (key in r <==> key in store) && (key in store ==> r[key] == store[key])
  {
    store[ViewPreferenceKey := preference]
  }

  /** The open state of section `i` on rebuild: the stored state when there is one
      (open iff it is `OpenState`), the configured default otherwise. */
  function SectionOpen(store: Store, i: nat, defaultOpen: bool): (open: bool)
    ensures SectionStateKey(i) !in store ==> open == defaultOpen
    ensures SectionStateKey(i) in store ==> (open <==> store[SectionStateKey(i)] == OpenState)
  {
    if SectionStateKey(i) in store then store[SectionStateKey(i)] == OpenState else defaultOpen
  }

  /** The section `toggle` listener: records `OpenState` or `ClosedState` for section `i`. */
  function SaveSectionState(store: Store, i: nat, open: bool): (r: Store)
    ensures SectionStateKey(i) in r && (r[SectionStateKey(i)] == OpenState <==> open)
    ensures r[SectionStateKey(i)] in {OpenState, ClosedState}
    ensures forall key :: key != SectionStateKey(i) ==>
              (key in r <==> key in store) && (key in store ==> r[key] == store[key])
  {
    store[SectionStateKey(i) := if open then OpenState else ClosedState]
  }

  /** Distinct sections use distinct keys. */
  lemma SectionStateKeyInjective(i: nat, j: nat)
    requires SectionStateKey(i) == SectionStateKey(j)
    ensures i == j
  {
    var p, a, b := SectionKeyPrefix, NatToString(i), NatToString(j);
    assert |a| == |b|;
    assert a == SectionStateKey(i)[|p|..|p| + |a|];
    assert b == SectionStateKey(j)[|p|..|p| + |b|];
    NatToStringInjective(i, j);
  }

  /** No section key is the view-preference key. */
  lemma SectionStateKeyIsNotViewKey(i: nat)
    ensures SectionStateKey(i) != ViewPreferenceKey
  {
    assert SectionStateKey(i)[8] == 's';
    assert ViewPreferenceKey[8] == 'v';
  }

  /** A saved preference is what the next read returns, whatever the configured default. */
  lemma SavedPreferenceIsRead(store: Store, preference: string, defaultView: string)
    requires preference != ""
    ensures UserPreference(SaveUserPreference(store, preference), defaultView) == preference
  {
  }

  /** A section toggle is read back by the next rebuild, overriding the configured default,
      and it changes neither any other section's state nor the view preference. */
  lemma SectionStateIsRead(store: Store, i: nat, open: bool)
    ensures forall d :: SectionOpen(SaveSectionState(store, i, open), i, d) == open
    ensures forall j: nat, d :: j != i ==>
              SectionOpen(SaveSectionState(store, i, open), j, d) == SectionOpen(store, j, d)
    ensures forall d :: UserPreference(SaveSectionState(store, i, open), d) == UserPreference(store, d)
    ensures forall key :: key != SectionStateKey(i) ==>
              (key in SaveSectionState(store, i, open) <==> key in store)
              && (key in store ==> SaveSectionState(store, i, open)[key] == store[key])
  {
    forall j: nat | j != i ensures SectionStateKey(j) != SectionStateKey(i) {
      if SectionStateKey(j) == SectionStateKey(i) { SectionStateKeyInjective(j, i); }
    }
    SectionStateKeyIsNotViewKey(i);
  }
}
