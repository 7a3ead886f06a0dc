/** The bookkeeping shared by one user and one board, stated on values:
    the user's map from board name to chosen channel, and the board's
    ordered subscriber list. The methods of `MessageBoard.User` and
    `MessageBoard.Board` are specified by these functions; the lemmas below
    state when the two sides agree, and where `subscribe` breaks that. */
module Subscriptions {
  import opened Lists

  /** One user's map from board name to channel, together with one board's
      subscribers. */
  datatype Link<U, C> = Link(prefs: map<string, C>, subs: seq<U>)

  /** The board's admission test: the requested channel is one of the
      board's channels and the user is not yet a subscriber. */
  predicate Admits<U(==), C(==)>(subs: seq<U>, allowed: seq<C>, u: U, req: C) {
    req in allowed && u !in subs
  }

  /** The subscriber list after the board is asked to admit `u`. */
  function Join<U(==), C(==)>(subs: seq<U>, allowed: seq<C>, u: U, req: C): (r: seq<U>)
    ensures Admits(subs, allowed, u, req) ==> r == subs + [u]
    ensures !Admits(subs, allowed, u, req) ==> r == subs
    ensures u in r <==> u in subs || req in allowed
    ensures NoDup(subs) ==> NoDup(r)
  {
    if Admits(subs, allowed, u, req) then
      assert forall k | 0 <= k < |subs| :: (subs + [u])[k] == subs[k];
      subs + [u]
    else subs
  }

  /** The pair after `u` subscribes to the board named `key` with channel
      `c`; `authOk` is whether the board let `u` in (always so for a public
      board). The map entry is written whatever the board answered. */
  function AfterSubscribe<U(==), C(==)>(l: Link<U, C>, allowed: seq<C>, u: U, key: string, c: C, authOk: bool): (l': Link<U, C>) {
    if authOk then Link(l.prefs[key := c], Join(l.subs, allowed, u, c)) else l
  }

  /** The pair after `u` unsubscribes from the board named `key`: the board
      drops `u`, and the map loses `key` (a missing key leaves it as it is,
      the caller then sees a lookup error). */
  function AfterUnsubscribe<U(==), C(==)>(l: Link<U, C>, u: U, key: string): (l': Link<U, C>) {
    Link(l.prefs - {key}, RemoveFirst(l.subs, u))
  }

  /** The user's map holds the boards this user subscribes to: an entry
      for the board exactly when the board lists the user. */
  predicate Consistent<U(==), C>(l: Link<U, C>, u: U, key: string) {
    key in l.prefs <==> u in l.subs
  }

  /** Subscribing a user who is in neither place, with an allowed channel,
      and then unsubscribing, gives back the same map and subscriber list. */
  lemma SubscribeUnsubscribeRoundTrip<U, C>(l: Link<U, C>, allowed: seq<C>, u: U, key: string, c: C)
    requires u !in l.subs && key !in l.prefs && c in allowed
    ensures AfterUnsubscribe(AfterSubscribe(l, allowed, u, key, c, true), u, key) == l
  {
    RemoveFirstAppended(l.subs, u);
    assert l.prefs[key := c] - {key} == l.prefs;
  }

  /** The bookkeeping flaw: when the board refuses the channel, the user
      still records the board, so a consistent pair becomes inconsistent. */
  lemma RefusedSubscriptionIsRecorded<U, C>(l: Link<U, C>, allowed: seq<C>, u: U, key: string, c: C)
    requires Consistent(l, u, key) && u !in l.subs && c !in allowed
    ensures var l' := AfterSubscribe(l, allowed, u, key, c, true);
      key in l'.prefs && l'.prefs[key] == c && l'.subs == l.subs && !Consistent(l', u, key)
  {
  }

  /** An admitted subscription keeps the pair consistent exactly when the
      channel is allowed or the user was already a subscriber; a refused
      authentication changes nothing. */
  lemma SubscribeConsistentIff<U, C>(l: Link<U, C>, allowed: seq<C>, u: U, key: string, c: C, authOk: bool)
    requires Consistent(l, u, key)
    ensures Consistent(AfterSubscribe(l, allowed, u, key, c, authOk), u, key)
        <==> !authOk || c in allowed || u in l.subs
  {
  }

  /** Unsubscribing restores consistency: afterwards the user is in neither
      place, provided the board never listed the user twice. */
  lemma UnsubscribeLeavesNeither<U, C>(l: Link<U, C>, u: U, key: string)
    requires NoDup(l.subs)
    ensures var l' := AfterUnsubscribe(l, u, key);
      key !in l'.prefs && u !in l'.subs && NoDup(l'.subs) && Consistent(l', u, key)
  {
    RemoveFirstNoDup(l.subs, u);
  }
}
