/** The participation ledger and favourites of `hooks/events.ts`: the write
    half of `useFavorites`, `useParticipatedEvents` and `useAddReview`.

    A hook keeps a local snapshot of a user-document field (delivered by a
    live subscription, which is not modelled) and issues writes against the
    stored field. Each operation takes both: the snapshot it decides on and
    the stored array the write lands on, together with the store's reply to
    that write. */
module Events {
  import opened Outcomes
  import Store

  /** `"upcoming" | "completed" | "cancelled"`. */
  datatype Status = Upcoming | Completed | Cancelled

  /** One entry of a user's `participatedEvents` array. */
  datatype ParticipatedEvent = ParticipatedEvent(eventId: string, status: Status, participationDate: string)

  /** A review stored in an organizer's `reviews` array. */
  datatype Review = Review(
    id: string, userId: string, userName: string, userProfilePic: string,
    rating: int, comment: string, timestamp: string)

  /** What a caller hands to `addReview`: a review without its `id`. */
  datatype ReviewInput = ReviewInput(
    userId: string, userName: string, userProfilePic: string,
    rating: int, comment: string, timestamp: string)

  /** The `loading` and `error` state a hook exposes. */
  datatype HookState = HookState(loading: bool, error: Option<string>)

  /** What one ledger operation leaves behind: the value it returns, the
      array write it issued (if any), the stored array afterwards and the
      hook's state afterwards. */
  datatype Call<T> = Call(returned: bool, issued: Option<Store.FieldUpdate<T>>, stored: seq<T>, hook: HookState)

  const FavoritesNeedUser := "User not logged in to manage favorites."
  const ParticipationNeedsUser := "User not logged in to manage participated events."
  const StatusUpdateNeedsUser := "User not logged in to update participated events."
  const ParticipationNotFound := "Participated event not found for update."

  /** The store applies the issued write when it is committed and leaves the
      array alone otherwise. */
  function Settle<T(==,!new)>(stored: seq<T>, u: Store.FieldUpdate<T>, reply: Reply, hook: HookState): (c: Call<T>)
    ensures c.issued == Some(u) && !c.hook.loading
    ensures c.returned <==> reply.Committed?
    ensures c.returned ==> c.stored == Store.Apply(stored, u) && c.hook.error.None?
    ensures !c.returned ==> c.stored == stored && c.hook.error == Some(reply.message)
  {
    match reply
    case Committed => Call(true, Some(u), Store.Apply(stored, u), HookState(false, None))
    case Threw(m) => Call(false, Some(u), stored, HookState(false, Some(m)))
  }

  // ---------------------------------------------------------------- favourites

  /** `toggleFavorite(eventId)`: remove the id when the snapshot `favorites`
      holds it, add it otherwise. */
  function ToggleFavorite(user: Option<string>, hook: HookState, favorites: seq<string>,
                          stored: seq<string>, eventId: string, reply: Reply): (c: Call<string>)
    ensures user.None? ==> (!c.returned && c.issued.None? && c.stored == stored
                           && c.hook == hook.(error := Some(FavoritesNeedUser)))
    ensures user.Some? ==> c.issued.Some? && !c.hook.loading
    ensures c.returned <==> user.Some? && reply.Committed?
    ensures c.returned ==> (eventId in c.stored <==> eventId !in favorites)
    ensures c.returned ==> forall id :: id != eventId ==> (id in c.stored <==> id in stored)
    ensures !c.returned ==> c.stored == stored
  {
    if user.None? then
      Call(false, None, stored, hook.(error := Some(FavoritesNeedUser)))
    else if eventId in favorites then
      Settle(stored, Store.RemoveOf([eventId]), reply, hook)
    else
      Settle(stored, Store.UnionOf([eventId]), reply, hook)
  }

  /** With the snapshot in step with the store, a toggle flips exactly the
      toggled id: in afterwards if and only if it was out before. */
  lemma ToggleFlipsMembership(user: string, hook: HookState, favorites: seq<string>, eventId: string)
    ensures var c := ToggleFavorite(Some(user), hook, favorites, favorites, eventId, Committed);
            c.returned
            && (eventId in c.stored <==> eventId !in favorites)
            && forall id :: id != eventId ==> (id in c.stored <==> id in favorites)
  {
  }

  /** Two committed toggles, the second deciding on what the first stored,
      give back the original list when the id was absent, and the original
      membership when it was present. */
  lemma {:induction false} ToggleTwice(user: string, hook: HookState, favorites: seq<string>, eventId: string)
    ensures var c1 := ToggleFavorite(Some(user), hook, favorites, favorites, eventId, Committed);
            var c2 := ToggleFavorite(Some(user), c1.hook, c1.stored, c1.stored, eventId, Committed);
            c2.returned
            && (eventId !in favorites ==> c2.stored == favorites)
            && forall id :: id in c2.stored <==> id in favorites
  {
    var c1 := ToggleFavorite(Some(user), hook, favorites, favorites, eventId, Committed);
    if eventId !in favorites {
      Store.UnionOne(favorites, eventId);
      assert c1.stored == favorites + [eventId];
      Store.RemoveOne(favorites + [eventId], eventId);
      Store.WithoutAppended(favorites, eventId);
    }
  }

  // ------------------------------------------------------- participated events

  /** `addParticipatedEvent(eventId, status = "upcoming")`: add a new entry
      dated `now` with `arrayUnion`. Nothing checks for an earlier entry for
      the same event. */
  function AddParticipatedEvent(user: Option<string>, hook: HookState, stored: seq<ParticipatedEvent>,
                                eventId: string, status: Option<Status>, now: string,
                                reply: Reply): (c: Call<ParticipatedEvent>)
    ensures user.None? ==> (!c.returned && c.issued.None? && c.stored == stored
                           && c.hook == hook.(error := Some(ParticipationNeedsUser)))
    ensures c.returned <==> user.Some? && reply.Committed?
    ensures c.returned ==> ParticipatedEvent(eventId, status.GetOr(Upcoming), now) in c.stored
    ensures c.returned ==> |stored| <= |c.stored| <= |stored| + 1 && c.stored[..|stored|] == stored
    ensures !c.returned ==> c.stored == stored
    ensures user.Some? ==> !c.hook.loading
  {
    if user.None? then
      Call(false, None, stored, hook.(error := Some(ParticipationNeedsUser)))
    else
      var entry := ParticipatedEvent(eventId, if status.Some? then status.value else Upcoming, now);
      Settle(stored, Store.UnionOf([entry]), reply, hook)
  }

  /** Adding a participation whose timestamp differs from every stored
      entry's appends exactly that entry. */
  lemma AddAppendsFreshEntry(user: string, hook: HookState, stored: seq<ParticipatedEvent>,
                             eventId: string, status: Option<Status>, now: string)
    requires forall i :: 0 <= i < |stored| ==> stored[i].participationDate != now
    ensures AddParticipatedEvent(Some(user), hook, stored, eventId, status, now, Committed).stored
            == stored + [ParticipatedEvent(eventId, status.GetOr(Upcoming), now)]
  {
    var entry := ParticipatedEvent(eventId, status.GetOr(Upcoming), now);
    Store.UnionOne(stored, entry);
  }

  /** The ledger keeps no uniqueness: two committed adds for the same event
      at different times leave two entries for it. */
  lemma AddTwiceDuplicates(user: string, hook: HookState, stored: seq<ParticipatedEvent>,
                           eventId: string, now1: string, now2: string)
    requires now1 != now2
    requires forall i :: 0 <= i < |stored| ==> stored[i].participationDate != now1 && stored[i].participationDate != now2
    ensures var c1 := AddParticipatedEvent(Some(user), hook, stored, eventId, None, now1, Committed);
            var c2 := AddParticipatedEvent(Some(user), c1.hook, c1.stored, eventId, None, now2, Committed);
            c2.stored == stored + [ParticipatedEvent(eventId, Upcoming, now1), ParticipatedEvent(eventId, Upcoming, now2)]
  {
    var c1 := AddParticipatedEvent(Some(user), hook, stored, eventId, None, now1, Committed);
    AddAppendsFreshEntry(user, hook, stored, eventId, None, now1);
    AddAppendsFreshEntry(user, c1.hook, c1.stored, eventId, None, now2);
  }

  /** `findIndex(p => p.eventId === eventId)`: the first matching position,
      or -1 when no entry matches. */
  function FirstIndex(list: seq<ParticipatedEvent>, eventId: string): (i: int)
    ensures -1 <= i < |list|
    ensures i == -1 <==> forall j :: 0 <= j < |list| ==> list[j].eventId != eventId
    ensures i >= 0 ==> list[i].eventId == eventId && forall j :: 0 <= j < i ==> list[j].eventId != eventId
  {
    if |list| == 0 then -1
    else if list[0].eventId == eventId then 0
    else
      var k := FirstIndex(list[1..], eventId);
      if k == -1 then -1 else k + 1
  }

  /** `updateParticipatedEventStatus(eventId, newStatus)`: copy the snapshot
      `participated`, change the status of its first entry for `eventId`
      and write the whole copy back over the stored array. */
  function UpdateParticipatedEventStatus(user: Option<string>, hook: HookState,
                                         participated: seq<ParticipatedEvent>, stored: seq<ParticipatedEvent>,
                                         eventId: string, newStatus: Status, reply: Reply): (c: Call<ParticipatedEvent>)
    ensures user.None? ==> (!c.returned && c.issued.None? && c.stored == stored
                           && c.hook == hook.(error := Some(StatusUpdateNeedsUser)))
    ensures user.Some? && (forall j :: 0 <= j < |participated| ==> participated[j].eventId != eventId) ==>
              !c.returned && c.issued.None? && c.stored == stored
              && c.hook == HookState(false, Some(ParticipationNotFound))
    ensures c.returned ==>
              var i := FirstIndex(participated, eventId);
              && |c.stored| == |participated|
              && c.stored[i] == participated[i].(status := newStatus)
              && forall j :: 0 <= j < |participated| && j != i ==> c.stored[j] == participated[j]
    ensures c.returned <==> user.Some? && reply.Committed? && exists j :: 0 <= j < |participated| && participated[j].eventId == eventId
    ensures !c.returned ==> c.stored == stored
  {
    if user.None? then
      Call(false, None, stored, hook.(error := Some(StatusUpdateNeedsUser)))
    else
      var i := FirstIndex(participated, eventId);
      if i > -1 then
        var updated := participated[i := participated[i].(status := newStatus)];
        Settle(stored, Store.Overwrite(updated), reply, hook)
      else
        Call(false, None, stored, HookState(false, Some(ParticipationNotFound)))
  }

  /** The whole-list rewrite is decided on the snapshot: an entry for
      another event that the store gained after the snapshot was taken is
      lost by a committed update. */
  lemma UpdateLosesConcurrentAdd(user: string, hook: HookState, participated: seq<ParticipatedEvent>,
                                 added: ParticipatedEvent, eventId: string, newStatus: Status)
    requires exists j :: 0 <= j < |participated| && participated[j].eventId == eventId
    requires added !in participated && added.eventId != eventId
    ensures var c := UpdateParticipatedEventStatus(Some(user), hook, participated, participated + [added],
                                                   eventId, newStatus, Committed);
            c.returned && added !in c.stored
  {
  }

  // -------------------------------------------------------------------- reviews

  /** The outcome of `addReview`: the hook's `success` flag besides the rest. */
  datatype ReviewCall = ReviewCall(returned: bool, review: Review, stored: seq<Review>, hook: HookState, success: bool)

  /** The stored review: a fresh `id`, the caller's fields, and the current
      time as `timestamp` whatever timestamp the caller passed. */
  function NewReview(reviewId: string, input: ReviewInput, now: string): (rv: Review)
    ensures rv.id == reviewId && rv.timestamp == now
    ensures rv.(id := "", timestamp := "") == Review("", input.userId, input.userName, input.userProfilePic,
                                                     input.rating, input.comment, "")
  {
    Review(reviewId, input.userId, input.userName, input.userProfilePic, input.rating, input.comment, now)
  }

  /** `addReview(organizerId, review)` against the organizer's `reviews`
      array: `reviewId` is the id the store generated, `now` the clock. */
  function AddReview(stored: seq<Review>, reviewId: string, input: ReviewInput, now: string, reply: Reply): (c: ReviewCall)
    ensures c.review.id == reviewId && c.review.timestamp == now
    ensures c.returned <==> reply.Committed?
    ensures c.success == c.returned && !c.hook.loading
    ensures c.returned ==> c.review in c.stored && |stored| <= |c.stored| && c.stored[..|stored|] == stored && c.hook.error.None?
    ensures !c.returned ==> c.stored == stored && c.hook.error == Some(reply.message)
  {
    var rv := NewReview(reviewId, input, now);
    match reply
    case Committed => ReviewCall(true, rv, Store.ArrayUnion(stored, [rv]), HookState(false, None), true)
    case Threw(m) => ReviewCall(false, rv, stored, HookState(false, Some(m)), false)
  }

  /** The caller's timestamp never reaches the store: two inputs that differ
      only in it store the same review. */
  lemma ReviewTimestampIgnored(stored: seq<Review>, reviewId: string, a: ReviewInput, b: ReviewInput, now: string, reply: Reply)
    requires a.(timestamp := "") == b.(timestamp := "")
    ensures AddReview(stored, reviewId, a, now, reply) == AddReview(stored, reviewId, b, now, reply)
  {
  }

  /** A review with an id no stored review has is appended at the end. */
  lemma FreshReviewAppended(stored: seq<Review>, reviewId: string, input: ReviewInput, now: string)
    requires forall i :: 0 <= i < |stored| ==> stored[i].id != reviewId
    ensures AddReview(stored, reviewId, input, now, Committed).stored == stored + [NewReview(reviewId, input, now)]
  {
    Store.UnionOne(stored, NewReview(reviewId, input, now));
  }
}
