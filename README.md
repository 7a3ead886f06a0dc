# Dummy message board: a verified model of its observer core

The original program is a small publish/subscribe message board written in Python, in one module (`main.py`). A board is the subject. It has a name, a list of allowed notification channels, an ordered list of subscribed users and a latest message. A board is either public or private; a private board also has a password. A user is the observer. It keeps a dictionary from board *name* to the channel it chose for that board, plus the channel of its latest subscription request. There are three channel variants: e-mail, SMS and WhatsApp. A channel renders the board's current message. Posting a message stores it and then asks every subscriber, in subscription order, to notify itself. The subscriber looks up its channel for that board's name and hands the board to that channel.

This project models that core in Dafny, in the program's own imperative form, and proves what the code and its docstrings promise of it:

- `lists.dfy` (module `Lists`): the Python list behaviour the core relies on. This covers membership by identity, having no duplicates, and `list.remove`, which drops the first equal element and keeps the order of the rest.
- `subscriptions.dfy` (module `Subscriptions`): the bookkeeping of one user and one board, stated on values. The value is a `Link`: the user's map from board name to channel, together with the board's subscriber list. `Join`, `AfterSubscribe` and `AfterUnsubscribe` say what admission, subscription and unsubscription do to that pair. The lemmas state the round trip, the agreement that the `_boards` docstring (`main.py:212-215`) describes (the map holds exactly the boards the user subscribes to), and the bookkeeping flaw in `subscribe` that breaks it.
- `board.dfy` (module `MessageBoard`):
  - the classes `Channel`, `Board` and `User`, each with the fields the source mutates;
  - the methods with the source's names;
  - the ghost functions `Receive` and `Broadcast`, which specify notification;
  - lemmas about `Receive` and `Broadcast`;
  - a few client methods that compose operations, and scenario methods on concrete objects: four replay the unit tests of the `new_post` setter, `add`, `remove` and `authenticate` (`test_main.py:11-36`, `test_main.py:47-54`), one runs a subscribe, post and leave cycle on a public board, and one replays the bookkeeping flaw.

Modelling choices:

- **Printing.** Every `print` of the source is an `Event` value. Each operation returns its events, in order, as a real out-parameter `events`. A channel notification is `Delivered(kind, message)`. Console text and formatting are not modelled. The `"="*80` separator is the single event `NotificationEnd`.
- **Identity.** Users and channels are compared by object identity in the source (the default `==` used by `in` and `list.remove`). Here they are class instances compared by reference, so two e-mail channels are different channels. The labels `"EMAIL"`, `"SMS"` and `"WhatsApp"` are `Label`. Events record a channel's kind rather than its printed label; `LabelsDistinct` shows that the two carry the same information.
- **Board variants.** `PublicBoard` and `PrivateBoard` are one class `Board` with a `const kind: BoardKind` (`Public | Private(password)`). The `isinstance` test in `subscribe` becomes `b.kind.Private?`. `authenticate` exists only on private boards, so `Board.Authenticate` requires `kind.Private?`.
- **Map key.** The user's map is keyed by the board's name string, as in the source. So two boards with the same name share one entry.
- **Exceptions.** A missing board name in the user's map raises `KeyError`. Reading `new_post` before anything was posted raises `AttributeError`. Both are `Status` values: `KeyError(name)` and `NoMessage`. The operation stops at the point where the source raises, and everything done before that point stays done. For example, `unsubscribe` has already removed the user from the board before `del` fails. The `ValueError` of `list.remove` is caught by the source and becomes `false`.
- **Invariant.** `Board.Valid()` is the board's object invariant. It says that no user is subscribed twice, and that every subscriber was admitted with a channel the board offers. The second part uses a ghost list `admittedVia` that runs parallel to `users`. `Add` appends the admitted user's requested channel to it. `Remove` drops the entry at the removed user's place. `AddChannels` leaves it as it is. `Subscribe` and `Unsubscribe` state the same through them. All five preserve `Valid()`.

Where the intent stated by the code's docstrings and names and what the code does disagree, the model follows the code:

- `add_channels` does not reject a batch that was registered before. It tests whether the whole argument list is an element of the channel list (`main.py:131`). Only channels are ever appended to that list, so the test is always false and the reject branch (`main.py:136-139`) cannot be reached. The model appends every channel, duplicates included, and returns `true`.
- `subscribe` asks the board to admit the user first and writes the map entry afterwards (`main.py:244-245`, `main.py:248-249`). It writes the entry whatever `add` answered. The `_boards` docstring (`main.py:212-215`) describes the map as the boards this user subscribes to, so the user should have an entry for a board exactly when the board lists the user. That agreement does not always hold. `Subscriptions.RefusedSubscriptionIsRecorded` states the case that breaks it, and `MessageBoard.RefusedButRecorded` replays that case on live objects. The flaw is reproduced, not fixed.
- A channel's notification reads `new_post`. On a board that never had a post, that read raises `AttributeError` (`main.py:39`, `main.py:61`). This is modelled as the `NoMessage` status.

## Model

| member | source | states |
|---|---|---|
| Lists.RemoveFirst | main.py:121-128 | `list.remove(u)` drops exactly the first occurrence of `u` and keeps the other elements in order. A list without `u` is unchanged. |
| Lists.RemoveFirstNoDup | main.py:121-128 | Removing from a list without duplicates leaves no copy of the removed user and no duplicates. |
| Lists.RemoveFirstAppended | main.py:106-128 | Removing a user who was just appended to a list that did not hold them gives back the original list. |
| Subscriptions.Join | main.py:106-119 | The board appends `u` at the end exactly when the requested channel is offered and `u` is not yet a subscriber; otherwise the list is unchanged. Afterwards `u` is listed iff it was already listed or its channel is offered. No duplicates are introduced. |
| Subscriptions.SubscribeUnsubscribeRoundTrip | main.py:237-256 | For a user in neither place, subscribing with an offered channel and then unsubscribing restores both the user's map and the subscriber list. |
| Subscriptions.RefusedSubscriptionIsRecorded | main.py:244-249 | When the board refuses the channel, the user still records the board with that channel and the subscriber list is unchanged, so user and board disagree. |
| Subscriptions.SubscribeConsistentIff | main.py:237-249 | Starting from an agreeing pair, the pair still agrees after `subscribe` exactly when authentication failed, or the channel is offered, or the user was already subscribed. |
| Subscriptions.UnsubscribeLeavesNeither | main.py:251-256 | After `unsubscribe`, on a board without duplicate subscribers, the user is in neither the board's list nor has an entry, so the pair agrees. |
| MessageBoard.LabelsDistinct | main.py:288-312 | The channel labels "EMAIL", "SMS" and "WhatsApp" identify the channel kind. |
| MessageBoard.BroadcastStatus | main.py:141-148 | Once a message is posted, notifying the subscribers ends normally iff every subscriber has an entry for the board's name; otherwise it ends with a lookup error for that name. |
| MessageBoard.BroadcastDelivers | main.py:141-148 | When every subscriber has an entry, a broadcast of `m` is, per subscriber in subscription order, exactly one notice and one delivery of `m` through the channel that subscriber recorded for the board. |
| MessageBoard.BroadcastStopsAt | main.py:146-147 | If subscriber `j` is the first without an entry, the broadcast ends with a lookup error right after `j`'s notice. Every earlier subscriber was served and no later one is. |
| MessageBoard.DeliveryAt | main.py:258-261 | The subscriber at place `k` gets the notice at `2k` and, at `2k+1`, the delivery through its own recorded channel. |
| MessageBoard.Channel.constructor | main.py:288-309 | A channel of the given kind. |
| MessageBoard.Channel.Notify | main.py:293-312 | Renders the board's current message through this channel's kind. It fails without a posted message. |
| MessageBoard.Board.PublicBoard | main.py:101-104 | A new public board has no subscribers, no channels and no message. |
| MessageBoard.Board.PrivateBoard | main.py:152-156 | A new private board stores its password and has no subscribers, no channels and no message. |
| MessageBoard.Board.Add | main.py:106-119 | Returns true iff the user's requested channel is offered and the user is not subscribed. The new list is `Join` of the old one, so the user is appended on success and the list is unchanged on failure. The ghost list of admission channels gains the requested channel exactly on success. It prints the joined line, the failed-to-add line or the channel-not-available line, and keeps `Valid()`. |
| MessageBoard.Board.Remove | main.py:121-128 | Returns true iff the user was subscribed. The new list is `RemoveFirst` of the old one, so the user is gone and the others keep their order. The admission channel at the removed user's place is dropped from the ghost list, which is unchanged on failure. It keeps `Valid()`. |
| MessageBoard.Board.AddChannels | main.py:130-135 | Appends every given channel in order after the existing ones, duplicates included. It returns true and prints one line per channel. Subscribers, message and admission channels stay as they were. |
| MessageBoard.Board.Notify | main.py:141-148 | Prints the opening line, then the events and status of `Broadcast` over the subscribers, then the closing line if nothing failed. |
| MessageBoard.Board.Post | main.py:63-67 | Stores `m`, prints the post, then notifies as `Notify` does with `m` as the message. |
| MessageBoard.Board.Authenticate | main.py:162-168 | Returns true iff the user's password equals the board's password exactly. It prints the outcome and changes nothing. |
| MessageBoard.User.constructor | main.py:206-211 | A new user has an empty map and no requested channel. |
| MessageBoard.User.Subscribe | main.py:237-249 | On a private board with a wrong password, nothing changes but the printed rejection. Otherwise it sets the requested channel, asks the board to admit the user, and records the channel for the board's name whether or not the board admitted the user. The new pair is `AfterSubscribe` of the old one. The board's admission channels gain `c` exactly when the user was admitted. |
| MessageBoard.User.Unsubscribe | main.py:251-256 | Removes the user from the board, then deletes only the board's name from the map; both make up `AfterUnsubscribe`. A missing entry is a lookup error after the removal. The board's admission channels lose the entry at the user's place if the user was subscribed. |
| MessageBoard.User.Notify | main.py:258-261 | Prints the notice, then delivers through the channel recorded for the board's name (`Receive`). A missing entry is a lookup error. |
| MessageBoard.User.Update | main.py:263-269 | Replaces only the entry for the board's name and prints old and new channel. Without an entry it is a lookup error and changes nothing. |
| MessageBoard.SubscribeThenUnsubscribe | main.py:237-256 | On live objects, subscribing a new user to a public board with an offered channel and unsubscribing restores the board's list and the user's map. |
| MessageBoard.UpdateThenPost | main.py:258-269 | After a subscriber switches channel, the next post delivers to that subscriber through the new channel, at the subscriber's place in the order. |
| MessageBoard.PostReaches | main.py:63-67 | Posting `m` serves the subscriber at place `k` with a notice and a delivery of `m` through that subscriber's recorded channel, after the post line, the opening notification line and the earlier subscribers, and ends with the closing line. |
| MessageBoard.PostThenLeave | main.py:251-261 | The post to a sole subscriber prints exactly the post line, the opening line, one notice, one delivery through the subscriber's channel and the closing line. The subscriber then unsubscribes, leaving both the board's list and the map empty. |

Six further methods carry no contract and only replay concrete situations:

- `MessageBoard.NewPostScenario` (`test_main.py:11-14`): a message posted through `Post` is the board's message afterwards.
- `MessageBoard.AddScenario` (`test_main.py:16-23`): a user whose requested channel is set directly to SMS, without `subscribe`, is admitted by a board offering SMS.
- `MessageBoard.RemoveScenario` (`test_main.py:25-36`): removing the admitted user succeeds, and removing a user who never joined fails.
- `MessageBoard.PublicBoardScenario`: "Public Board" offers e-mail and SMS. "Doanh" subscribes by e-mail, receives "Hello" once by e-mail, and leaves.
- `MessageBoard.AuthenticationScenario` (`test_main.py:47-54`): a private board with password "Admin" accepts "Admin" and rejects "admin". A rejected user is neither recorded nor admitted.
- `MessageBoard.RefusedButRecorded`: a board that offers no channel refuses a user, but the user records the board anyway.

## Left out

- Console text and formatting: every `print` is an abstract `Event`. The wording of the lines is not modelled.
- The demo script under `if __name__ == "__main__"` (`main.py:315-354`): a fixed sequence of calls with no logic of its own.
- The abstract base classes `Board`, `User` and `Channel` with their `abstractmethod` stubs, and the class-level list defaults (`main.py:41`, `main.py:46`). These are Python mechanics that the constructors override.
- The read-only properties (`name`, `password`, `username`, `boards`, `request_channel`, the `new_post` getter) and the `request_channel` setter. They are the model's public fields, read and assigned directly.
- MessageBoard.Board.Add: requires the user to have a requested channel. The source dereferences it, and would fail with `AttributeError` on a user that never requested one. `subscribe` always sets it first.
- MessageBoard.Board.AddChannels: takes the channel list as a value, so passing the board's own channel list, which in the source appends to the list being iterated and never ends (`main.py:132-133`), is not modelled.
- MessageBoard.Board.AddChannels: models only the reachable branch. The duplicate-batch rejection of `main.py:136-139` cannot be reached for a list of channels (see above).
- Exceptions are `Status` results, not control flow. The model shows where an operation stops, but not the unwinding through a caller that ignores the result.
- `test_main.py` has no logic of its own and is not modelled. Its assertions on the `new_post` setter, `add`, `remove` and `authenticate` are replayed by `NewPostScenario`, `AddScenario`, `RemoveScenario` and `AuthenticationScenario`; the first is also what `Board.Post`'s `post == Some(m)` states. Its other property tests (`test_main.py:7-9`, `test_main.py:43-45`, `test_main.py:58-64`) only read back constructor arguments, which the constructors' contracts state. Its empty tests have nothing to replay.
