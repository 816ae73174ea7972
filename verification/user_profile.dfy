/** The user-profile hook of `hooks/userProfile.ts`: building the profile
    record at signup, reading it, and the optimistic local merge after an
    update. The hook's React state is the `ProfileHook` record. */
module UserProfile {
  import opened Outcomes
  import Events
  import Auth

  /** The `preferences` field: chosen categories and, per category, the
      chosen subcategories. */
  datatype Preferences = Preferences(categories: seq<string>, subcategories: map<string, seq<string>>)

  /** A `users/{uid}` document. Optional fields are `Option`s. */
  datatype Profile = Profile(
    participatedEvents: seq<Events.ParticipatedEvent>,
    favoriteEventIds: seq<string>,
    uid: string,
    email: Option<string>,
    firstName: Option<string>,
    lastName: Option<string>,
    dateOfBirth: Option<string>,
    gender: Option<string>,
    newsletter: Option<bool>,
    datenschutzAccepted: Option<bool>,
    preferences: Option<Preferences>)

  /** `Partial<UserProfile>`: every field either left out (`None`) or given. */
  datatype Updates = Updates(
    participatedEvents: Option<seq<Events.ParticipatedEvent>>,
    favoriteEventIds: Option<seq<string>>,
    uid: Option<string>,
    email: Option<Option<string>>,
    firstName: Option<string>,
    lastName: Option<string>,
    dateOfBirth: Option<string>,
    gender: Option<string>,
    newsletter: Option<bool>,
    datenschutzAccepted: Option<bool>,
    preferences: Option<Preferences>)

  /** The update that sets no field. */
  const NoUpdates := Updates(None, None, None, None, None, None, None, None, None, None, None)

  /** The hook's `loading`, `error` and `profile` state. */
  datatype ProfileHook = ProfileHook(loading: bool, error: Option<string>, profile: Option<Profile>)

  /** The outcome of reading `users/{uid}`. */
  datatype ReadReply = Found(data: Profile) | Missing | ReadThrew(message: string)

  /** A field that an update may set: the given value when present. */
  function Pick<T>(given: Option<T>, kept: T): T {
    if given.Some? then given.value else kept
  }

  /** An optional field that an update may set to a (present) value. */
  function PickOptional<T>(given: Option<T>, kept: Option<T>): Option<T> {
    if given.Some? then given else kept
  }

  /** `{ ...prev, ...updates }`: the fields `u` gives override, all others
      keep `p`'s value. */
  function Merge(p: Profile, u: Updates): (r: Profile)
    ensures u == NoUpdates ==> r == p
    ensures u.favoriteEventIds.None? ==> r.favoriteEventIds == p.favoriteEventIds
    ensures u.favoriteEventIds.Some? ==> r.favoriteEventIds == u.favoriteEventIds.value
    ensures u.participatedEvents.None? ==> r.participatedEvents == p.participatedEvents
    ensures u.participatedEvents.Some? ==> r.participatedEvents == u.participatedEvents.value
    ensures u.uid.None? ==> r.uid == p.uid
    ensures u.uid.Some? ==> r.uid == u.uid.value
    ensures u.email.None? ==> r.email == p.email
    ensures u.email.Some? ==> r.email == u.email.value
    ensures u.firstName.None? ==> r.firstName == p.firstName
    ensures u.firstName.Some? ==> r.firstName == u.firstName
    ensures u.lastName.None? ==> r.lastName == p.lastName
    ensures u.lastName.Some? ==> r.lastName == u.lastName
    ensures u.dateOfBirth.None? ==> r.dateOfBirth == p.dateOfBirth
    ensures u.dateOfBirth.Some? ==> r.dateOfBirth == u.dateOfBirth
    ensures u.gender.None? ==> r.gender == p.gender
    ensures u.gender.Some? ==> r.gender == u.gender
    ensures u.newsletter.None? ==> r.newsletter == p.newsletter
    ensures u.newsletter.Some? ==> r.newsletter == u.newsletter
    ensures u.datenschutzAccepted.None? ==> r.datenschutzAccepted == p.datenschutzAccepted
    ensures u.datenschutzAccepted.Some? ==> r.datenschutzAccepted == u.datenschutzAccepted
    ensures u.preferences.None? ==> r.preferences == p.preferences
    ensures u.preferences.Some? ==> r.preferences == u.preferences
  {
    Profile(
      Pick(u.participatedEvents, p.participatedEvents),
      Pick(u.favoriteEventIds, p.favoriteEventIds),
      Pick(u.uid, p.uid),
      Pick(u.email, p.email),
      PickOptional(u.firstName, p.firstName),
      PickOptional(u.lastName, p.lastName),
      PickOptional(u.dateOfBirth, p.dateOfBirth),
      PickOptional(u.gender, p.gender),
      PickOptional(u.newsletter, p.newsletter),
      PickOptional(u.datenschutzAccepted, p.datenschutzAccepted),
      PickOptional(u.preferences, p.preferences))
  }

  /** Applying the same update twice is applying it once. */
  lemma MergeIdempotent(p: Profile, u: Updates)
    ensures Merge(Merge(p, u), u) == Merge(p, u)
  {
  }

  /** `toISOString().split("T")[0]`: the part of the ISO string before its
      first 'T' (all of it when there is none). */
  function DatePart(iso: string): (d: string)
    ensures 'T' !in d
    ensures |d| <= |iso| && d == iso[..|d|]
    ensures |d| == |iso| || iso[|d|] == 'T'
  {
    if |iso| == 0 || iso[0] == 'T' then ""
    else [iso[0]] + DatePart(iso[1..])
  }

  /** The date part of a well-formed ISO timestamp is its first ten
      characters. */
  lemma DatePartOfTimestamp(date: string, time: string)
    requires |date| == 10 && 'T' !in date
    ensures DatePart(date + "T" + time) == date
  {
    assert (date + "T" + time)[10] == 'T';
  }

  /** The result of `createUserProfile`. */
  datatype CreateCall = CreateCall(returned: Option<Profile>, stored: Option<Profile>, hook: ProfileHook)

  /** `createUserProfile(user, ...)`: build the record and `setDoc` it with
      `merge: true` over the `existing` document. The merge keeps fields the
      record leaves out (only `preferences`); every field the record sets,
      the two empty arrays included, overwrites the stored one. */
  function CreateUserProfile(hook: ProfileHook, user: Auth.User, firstName: string, lastName: string,
                             dateOfBirthIso: string, gender: string, newsletter: bool, datenschutzAccepted: bool,
                             existing: Option<Profile>, reply: Reply): (c: CreateCall)
    ensures !c.hook.loading
    ensures c.returned.Some? <==> reply.Committed?
    ensures c.returned.Some? ==>
              var p := c.returned.value;
              && p.uid == user.uid && p.email == user.email
              && p.firstName == Some(firstName) && p.lastName == Some(lastName)
              && p.dateOfBirth == Some(DatePart(dateOfBirthIso)) && p.gender == Some(gender)
              && p.newsletter == Some(newsletter) && p.datenschutzAccepted == Some(datenschutzAccepted)
              && p.favoriteEventIds == [] && p.participatedEvents == [] && p.preferences.None?
              && c.hook == ProfileHook(false, None, Some(p))
    ensures c.returned.Some? ==> c.stored.Some? && c.stored.value.(preferences := None) == c.returned.value
    ensures c.returned.Some? && existing.Some? ==> c.stored.value.preferences == existing.value.preferences
    ensures c.returned.None? ==> c.stored == existing && c.hook == ProfileHook(false, Some(reply.message), hook.profile)
  {
    var p := Profile([], [], user.uid, user.email, Some(firstName), Some(lastName),
                     Some(DatePart(dateOfBirthIso)), Some(gender), Some(newsletter), Some(datenschutzAccepted), None);
    match reply
    case Committed =>
      var merged := if existing.Some? then p.(preferences := existing.value.preferences) else p;
      CreateCall(Some(p), Some(merged), ProfileHook(false, None, Some(p)))
    case Threw(m) => CreateCall(None, existing, ProfileHook(false, Some(m), hook.profile))
  }

  /** Re-creating the profile of a user who already has favourites and
      participations empties both arrays, despite the merge. */
  lemma CreateOverwritesLists(hook: ProfileHook, user: Auth.User, firstName: string, lastName: string,
                              dob: string, gender: string, newsletter: bool, accepted: bool, existing: Profile)
    requires |existing.favoriteEventIds| > 0 || |existing.participatedEvents| > 0
    ensures var c := CreateUserProfile(hook, user, firstName, lastName, dob, gender, newsletter, accepted,
                                       Some(existing), Committed);
            c.stored.Some? && c.stored.value.favoriteEventIds == [] && c.stored.value.participatedEvents == []
            && c.stored.value != existing
  {
  }

  /** The result of `getUserProfile`. */
  datatype GetCall = GetCall(returned: Option<Profile>, hook: ProfileHook)

  /** `getUserProfile(uid)`. A missing document yields null and clears the
      profile; a failed read yields null and leaves the profile alone. */
  function GetUserProfile(hook: ProfileHook, read: ReadReply): (c: GetCall)
    ensures !c.hook.loading
    ensures read.Found? ==> c.returned == Some(read.data) && c.hook == ProfileHook(false, None, Some(read.data))
    ensures read.Missing? ==> c.returned.None? && c.hook == ProfileHook(false, None, None)
    ensures read.ReadThrew? ==> c.returned.None? && c.hook == ProfileHook(false, Some(read.message), hook.profile)
  {
    match read
    case Found(data) => GetCall(Some(data), ProfileHook(false, None, Some(data)))
    case Missing => GetCall(None, ProfileHook(false, None, None))
    case ReadThrew(m) => GetCall(None, ProfileHook(false, Some(m), hook.profile))
  }

  /** Reading back what `createUserProfile` stored gives the created profile
      with the preferences the document already had, or none. */
  lemma CreateThenGet(hook: ProfileHook, user: Auth.User, firstName: string, lastName: string,
                      dob: string, gender: string, newsletter: bool, accepted: bool,
                      existing: Option<Profile>, later: ProfileHook)
    ensures var c := CreateUserProfile(hook, user, firstName, lastName, dob, gender, newsletter, accepted,
                                       existing, Committed);
            var g := GetUserProfile(later, Found(c.stored.value));
            && g.returned.Some?
            && g.returned.value == c.returned.value.(preferences := if existing.Some? then existing.value.preferences else None)
            && g.hook.profile == g.returned
  {
  }

  /** The result of `updateUserProfile`: what it returned, the update it sent
      and the hook's state afterwards. */
  datatype UpdateCall = UpdateCall(returned: bool, sent: Updates, hook: ProfileHook)

  /** `updateUserProfile(uid, updates)`: send the update; on success merge it
      into the local profile (a null profile stays null). */
  function UpdateUserProfile(hook: ProfileHook, updates: Updates, reply: Reply): (c: UpdateCall)
    ensures c.sent == updates && !c.hook.loading
    ensures c.returned <==> reply.Committed?
    ensures c.returned ==> c.hook.error.None?
    ensures c.returned && hook.profile.Some? ==> c.hook.profile == Some(Merge(hook.profile.value, updates))
    ensures hook.profile.None? ==> c.hook.profile.None?
    ensures !c.returned ==> c.hook == ProfileHook(false, Some(reply.message), hook.profile)
  {
    match reply
    case Committed =>
      var profile := if hook.profile.Some? then Some(Merge(hook.profile.value, updates)) else None;
      UpdateCall(true, updates, ProfileHook(false, None, profile))
    case Threw(m) => UpdateCall(false, updates, ProfileHook(false, Some(m), hook.profile))
  }
}
