/** The preference screen of `app/preferences.tsx`: toggling a subcategory
    in the selection, and saving the selection into the profile.

    The selection is a JavaScript object from category to subcategory list.
    Its key order matters (`Object.keys` lists the saved categories), so it
    is modelled as the keys in insertion order beside the map itself. */
module Preferences {
  import opened Outcomes
  import Store
  import UserProfile

  datatype Selection = Selection(keys: seq<string>, lists: map<string, seq<string>>)

  /** The keys are listed once each, and they are exactly the map's keys. */
  ghost predicate Valid(s: Selection) {
    Store.NoDuplicates(s.keys) && forall k :: k in s.lists <==> k in s.keys
  }

  /** The initial selection, `{}`. */
  const Empty := Selection([], map[])

  /** `prev[category] || []`. */
  function Current(s: Selection, category: string): seq<string> {
    if category in s.lists then s.lists[category] else []
  }

  /** `{ ...prev, [category]: list }`: an existing key keeps its place, a new
      key goes last. */
  function Put(s: Selection, category: string, list: seq<string>): (r: Selection)
    ensures r.lists == s.lists[category := list]
    ensures |s.keys| <= |r.keys| && r.keys[..|s.keys|] == s.keys
    ensures Valid(s) ==> Valid(r)
  {
    Selection(if category in s.keys then s.keys else s.keys + [category], s.lists[category := list])
  }

  /** `togglePreference(category, subcategory)`. */
  function TogglePreference(s: Selection, category: string, sub: string): (r: Selection)
    ensures r.lists.Keys == s.lists.Keys + {category}
    ensures forall k :: k in s.lists && k != category ==> r.lists[k] == s.lists[k]
    ensures sub in r.lists[category] <==> sub !in Current(s, category)
    ensures sub !in Current(s, category) ==> r.lists[category] == Current(s, category) + [sub]
    ensures sub in Current(s, category) ==>
              multiset(r.lists[category]) == multiset(Current(s, category))[sub := 0]
    ensures |s.keys| <= |r.keys| && r.keys[..|s.keys|] == s.keys
    ensures Valid(s) ==> Valid(r)
  {
    var current := Current(s, category);
    if sub in current then Put(s, category, Store.Without(current, sub))
    else Put(s, category, current + [sub])
  }

  /** Toggling the same subcategory twice, from a state without it, gives
      back the category's list exactly, and the whole selection when the
      category was already a key. */
  lemma ToggleTwiceRestores(s: Selection, category: string, sub: string)
    requires sub !in Current(s, category)
    ensures var r := TogglePreference(TogglePreference(s, category, sub), category, sub);
            r.lists[category] == Current(s, category)
            && (Valid(s) && category in s.lists ==> r == s)
  {
    var s1 := TogglePreference(s, category, sub);
    assert Current(s1, category) == Current(s, category) + [sub];
    Store.WithoutAppended(Current(s, category), sub);
  }

  /** Every category's list is free of duplicates. */
  predicate DuplicateFree(s: Selection) {
    forall k :: k in s.lists ==> Store.NoDuplicates(s.lists[k])
  }

  /** The selection after a sequence of taps, each a (category, subcategory). */
  function ToggleAll(s: Selection, taps: seq<(string, string)>): Selection
    decreases |taps|
  {
    if |taps| == 0 then s
    else ToggleAll(TogglePreference(s, taps[0].0, taps[0].1), taps[1..])
  }

  /** A single toggle keeps every list duplicate-free. */
  lemma ToggleKeepsDuplicateFree(s: Selection, category: string, sub: string)
    requires DuplicateFree(s)
    ensures DuplicateFree(TogglePreference(s, category, sub))
  {
    var current := Current(s, category);
    assert Store.NoDuplicates(current);
    if sub in current {
      Store.WithoutKeepsNoDuplicates(current, sub);
    } else {
      assert Store.NoDuplicates(Store.AddIfAbsent(current, sub));
    }
  }

  /** From a valid, duplicate-free selection, no sequence of taps ever lists
      a subcategory twice. */
  lemma {:induction false} TapsKeepDuplicateFree(s: Selection, taps: seq<(string, string)>)
    requires DuplicateFree(s) && Valid(s)
    ensures DuplicateFree(ToggleAll(s, taps)) && Valid(ToggleAll(s, taps))
    decreases |taps|
  {
    if |taps| > 0 {
      ToggleKeepsDuplicateFree(s, taps[0].0, taps[0].1);
      TapsKeepDuplicateFree(TogglePreference(s, taps[0].0, taps[0].1), taps[1..]);
    }
  }

  /** The screen's own starting point: from `{}` every reachable selection
      is duplicate-free. */
  lemma EmptyStaysDuplicateFree(taps: seq<(string, string)>)
    ensures DuplicateFree(ToggleAll(Empty, taps))
  {
    TapsKeepDuplicateFree(Empty, taps);
  }

  /** `Object.keys(sel).filter(cat => sel[cat].length > 0)`, over `keys`. */
  function NonEmptyCategories(keys: seq<string>, lists: map<string, seq<string>>): (cs: seq<string>)
    ensures forall c :: c in cs <==> c in keys && c in lists && |lists[c]| > 0
    ensures |cs| <= |keys|
    ensures Store.NoDuplicates(keys) ==> Store.NoDuplicates(cs)
  {
    if |keys| == 0 then []
    else
      var rest := NonEmptyCategories(keys[1..], lists);
      assert keys == [keys[0]] + keys[1..];
      if keys[0] in lists && |lists[keys[0]]| > 0 then [keys[0]] + rest else rest
  }

  /** The filter keeps the key order: the categories of consecutive key
      lists are the concatenation of their categories. */
  lemma {:induction false} NonEmptyDistributes(keys1: seq<string>, keys2: seq<string>, lists: map<string, seq<string>>)
    ensures NonEmptyCategories(keys1 + keys2, lists) == NonEmptyCategories(keys1, lists) + NonEmptyCategories(keys2, lists)
    decreases |keys1|
  {
    if |keys1| == 0 {
      assert keys1 + keys2 == keys2;
    } else {
      assert (keys1 + keys2)[0] == keys1[0] && (keys1 + keys2)[1..] == keys1[1..] + keys2;
      NonEmptyDistributes(keys1[1..], keys2, lists);
    }
  }

  /** The `preferences` value `handleSavePreferences` saves: the categories
      with a non-empty list, in key order, and the selection as it is. */
  function SavedPreferences(s: Selection): (p: UserProfile.Preferences)
    ensures Valid(s) ==> forall c :: c in p.categories <==> c in s.lists && |s.lists[c]| > 0
    ensures Valid(s) ==> Store.NoDuplicates(p.categories)
    ensures p.subcategories == s.lists
  {
    UserProfile.Preferences(NonEmptyCategories(s.keys, s.lists), s.lists)
  }

  /** Where the screen goes after the save. */
  datatype Navigation = ToLogin | ToSearch | Stay

  /** The outcome of `handleSavePreferences`: where it navigates, and the
      profile update it made, if any. */
  datatype SaveOutcome = SaveOutcome(navigation: Navigation, update: Option<UserProfile.UpdateCall>)

  /** `handleSavePreferences()`: without a user, send the screen to login and
      save nothing; otherwise update the profile's `preferences` alone. */
  function HandleSavePreferences(user: Option<string>, s: Selection, hook: UserProfile.ProfileHook, reply: Reply): (o: SaveOutcome)
    ensures user.None? <==> o.navigation == ToLogin
    ensures user.None? <==> o.update.None?
    ensures o.update.Some? ==> o.update.value.sent == UserProfile.NoUpdates.(preferences := Some(SavedPreferences(s)))
    ensures o.navigation == ToSearch <==> o.update.Some? && o.update.value.returned
    ensures o.navigation == ToSearch <==> user.Some? && reply.Committed?
  {
    if user.None? then SaveOutcome(ToLogin, None)
    else
      var updates := UserProfile.NoUpdates.(preferences := Some(SavedPreferences(s)));
      var call := UserProfile.UpdateUserProfile(hook, updates, reply);
      SaveOutcome(if call.returned then ToSearch else Stay, Some(call))
  }

  /** A successful save leaves a loaded profile with exactly the saved
      preferences and everything else as it was. */
  lemma SaveTouchesOnlyPreferences(uid: string, s: Selection, hook: UserProfile.ProfileHook)
    requires hook.profile.Some?
    ensures var o := HandleSavePreferences(Some(uid), s, hook, Committed);
            o.update.Some?
            && o.update.value.hook.profile == Some(hook.profile.value.(preferences := Some(SavedPreferences(s))))
  {
  }
}
