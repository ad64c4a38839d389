# VK matching bot — a Dafny model

This project models the core of a VK bot that suggests dating matches. The
bot keeps a pool of open user profiles found by two user searches. When a
user presses "search", it scores every profile against that user and picks
the best one the user has not seen yet. It rates that profile between 0 and
5, records the pair, and replies with the profile's address line and its
most liked photos. Underneath sits a small API layer with these parts:

- an envelope check and a retry policy on VK error codes;
- a registry of command handlers;
- a router that turns long-poll message events into handler tasks;
- the long-poll cursor (KEY, SERVER, TS).

There are four Dafny files:

- `stable_sort.dfy` (module `StableSort`) is a stable sort by a descending
  integer key. It stands for both Python sorts the bot uses.
- `models.dfy` (module `Models`) covers `vk_api/models.py`:
  - decoded JSON values and the Python exceptions the code can raise;
  - users and the birth-date fallback;
  - messages and the default payload;
  - the reply keyboard, as a class.
- `api_handler.dfy` (module `ApiHandler`) covers `vk_api/api_handler.py`:
  - the call and its retries, as a loop over scripted response envelopes;
  - the routing reference functions;
  - the group handler, as a class whose fields are the registry, the pending
    tasks and the cursor.
- `main.dfy` (module `BotMain`) covers `main.py`:
  - the scores;
  - the reference choice and the proof that "first unseen after the stable
    sort" is "earliest unseen with the highest score";
  - the imperative matching method and the user store of seen pairs;
  - the candidate pool, as a class;
  - the photo names and the address line.

Scores are kept in integer tenths of a point, so 0.3 is 3 and −5 is −50. The
rate is a `real`. The test at `main.py:90` compares the bound methods
`bdate.date` of two datetime objects. Those are equal only when the two
objects are the same one, so the model gives each parsed date an identity
`ref` and compares that. A birthday without a year gets year 1900, as
`strptime` gives it. The quirks below are kept as the code has them:

- `text in "start"` is a substring test, so an empty text fires every
  handler whose "message" option is a string.
- An envelope with neither error nor data sends None to the error handler,
  which then fails on `.get`.
- The matcher raises on an empty candidate list.
- The matcher divides by zero when an unseen candidate exists and all
  candidates share one score.

## Model

| member | source | states |
|---|---|---|
| StableSort.SortDescSorted | main.py:101 | after sorting by `-score`, scores never increase along the list |
| StableSort.SortDescPermutation | main.py:101 | the sort keeps every element with its multiplicity |
| StableSort.SortDescStable | main.py:101 | elements with equal keys keep their input order |
| StableSort.SortDesc | main.py:101 | the sort behind `list.sort(key=-score)` and `sorted(..., reverse=True)`: insertion by non-increasing key, keeping the length; its order, permutation and stability are the three lemmas above |
| Models.ParseBirthDate | vk_api/models.py:84-92 | an absent date stays None; an empty string skips both parses and is refused by the record's datetime validation with a ValueError; the `%d.%m.%Y` parse is used when it succeeds; only when it fails is the `%d.%m` parse used, with year 1900; when both fail ValueError escapes; the date object is the one created by the parse |
| Models.NewMessage | vk_api/models.py:18-25 | a missing payload becomes `{"command": None}` (so its only value is None), a given payload is kept, a missing date becomes timestamp 0, id/user/text are copied |
| Models.Keyboard.constructor | vk_api/models.py:33-37 | a new keyboard has the given one-time flag and no rows |
| Models.Keyboard.AddButtonToRow | vk_api/models.py:39-56 | the row count becomes max(old count, r+1); exactly one button is appended at the end of row r, carrying the label, type, `{"command": command}` payload and the colour (PRIMARY when none); other old rows are unchanged and padded rows other than r are empty; the button count grows by one; a negative index counts from the end and raises IndexError before the first row, leaving the keyboard unchanged |
| ApiHandler.HandleError | vk_api/api_handler.py:47-62 | code 6 retries after a sleep, 38 retries at once, 9 returns None, 100 and every other code exit; a non-object error raises AttributeError on `.get` |
| ApiHandler.Classify | vk_api/api_handler.py:40-43 | truthy data without a truthy error is returned; a truthy error, or missing data, goes to the error policy (HandleError), so with neither error nor data the call raises AttributeError; a step retries iff the error is an object with code 6 or 38, sleeping iff 6 |
| ApiHandler.Call | vk_api/api_handler.py:35-62 | every request a call issues is the original method and parameters; one request per consumed envelope; no more sleeps than requests; the call is left unanswered iff every envelope asked for a retry |
| ApiHandler.CallEnds | vk_api/api_handler.py:35-62 | an unanswered call issued one request per envelope; any other call ends with the policy's outcome for the last envelope it consumed, every earlier envelope having asked for a retry |
| ApiHandler.RetriesThenFinish | vk_api/api_handler.py:42-62 | k retried errors followed by an envelope that ends the call (data, code 9, an exit or an exception) end the call as that envelope says, after exactly k+1 requests, with one sleep per code 6 |
| ApiHandler.CallMethod | vk_api/api_handler.py:35-62 | the loop that replaces the recursion yields exactly Call's outcome, requests and sleeps |
| ApiHandler.GroupParams | vk_api/api_handler.py:139 | the parameters gain `group_id` set to the group's id, replacing any caller value; other parameters are unchanged |
| ApiHandler.TextIn | vk_api/api_handler.py:165 | `text in options["message"]` is a substring test on a string, membership on a list, a key test on a dict, and TypeError (the only exception) on None or a number |
| ApiHandler.Decide | vk_api/api_handler.py:159-168 | the if/elif chain raises iff the options are non-empty and the "message" test raises; otherwise it says whether the handler fires (empty options, text in "message", or "command" among the payload values) |
| ApiHandler.Schedule | vk_api/api_handler.py:158-168 | at most one task per registered handler, each for the message being routed; the only exception it stops with is TypeError |
| ApiHandler.ScheduleExactly | vk_api/api_handler.py:158-168 | when no option raises, routing a message schedules exactly the handlers that fire, each once, in registration order |
| ApiHandler.ScheduleRaises | vk_api/api_handler.py:158-168 | when handler j's "message" test is the first to raise, the handlers before it that fire keep their tasks in order and routing stops with that exception |
| ApiHandler.FiringMembership | vk_api/api_handler.py:159-168 | handler j gets a task, at its place in registration order, iff it fires; it is absent iff it does not fire |
| ApiHandler.EventTasks | vk_api/api_handler.py:150-170 | only a new-message event schedules anything: at most one task per handler, each for the message built from the event with its sender looked up, and only TypeError can stop it; which handlers, is EventTasksFiring and EventTasksRaises |
| ApiHandler.Dispatch | vk_api/api_handler.py:149-171 | routing a batch stops only with TypeError; DispatchSingle, DispatchAppend and EventTasksFiring give its tasks: events in order, each scheduling the handlers that fire, in registration order |
| ApiHandler.DispatchSingle | vk_api/api_handler.py:149-171 | a batch of one event schedules exactly what that event schedules |
| ApiHandler.EventTasksFiring | vk_api/api_handler.py:150-168 | a new-message event whose options all evaluate schedules exactly the handlers that fire for the message built from it (sender looked up), each once, in registration order |
| ApiHandler.EventTasksRaises | vk_api/api_handler.py:150-168 | a new-message event whose handler j is the first to raise keeps the tasks of the firing handlers before j and stops with that exception |
| ApiHandler.DefaultPayloadIgnoresCommands | vk_api/api_handler.py:167 | for a message without payload, a handler with a non-None "command" option fires only through empty options or its "message" option |
| ApiHandler.EmptyTextMatchesStringOption | vk_api/api_handler.py:165 | a message with empty text fires every handler whose "message" option is a string |
| ApiHandler.ButtonPayloadFires | vk_api/api_handler.py:167 | the payload a keyboard button sends back fires the handler registered with that command |
| ApiHandler.DispatchAppend | vk_api/api_handler.py:149-171 | routing a + b routes a, then b unless a raised, with b's tasks after a's |
| ApiHandler.DispatchIgnoresOtherEvents | vk_api/api_handler.py:153-171 | events of other types schedule nothing |
| ApiHandler.GroupHandler.constructor | vk_api/api_handler.py:15-31 | a new handler has an empty list for `message_new`, no tasks, and no cursor |
| ApiHandler.GroupHandler.Command | vk_api/api_handler.py:95-103 | registering for a known event appends (handler, options) to that event's list and changes no other; an unknown event changes nothing |
| ApiHandler.GroupHandler.AddTask | vk_api/api_handler.py:64-67 | the new tasks are appended in order |
| ApiHandler.GroupHandler.ScheduleMessage | vk_api/api_handler.py:158-168 | pending tasks gain Schedule's tasks for the message; the first raising option stops the loop with its exception |
| ApiHandler.GroupHandler.HandleEvent | vk_api/api_handler.py:150-171 | a new-message event is built into a Message (user looked up by sender) and scheduled; other events add nothing |
| ApiHandler.GroupHandler.Route | vk_api/api_handler.py:149-171 | tasks are appended in event order, then registration order, as Dispatch says; an exception stops routing and keeps what was added |
| ApiHandler.GroupHandler.EventHandler | vk_api/api_handler.py:148-171 | a batch is routed through the handlers registered for `message_new` |
| ApiHandler.GroupHandler.Method | vk_api/api_handler.py:137-140 | every request of a group call, retries included, carries the method name and `group_id` |
| ApiHandler.GroupHandler.SetLongPollServer | vk_api/api_handler.py:142-146 | on an object reply KEY, SERVER and TS become its "key", "server", "ts", and the handshake succeeds only when all three are truthy (else AssertionError); a non-object reply raises AttributeError before storing anything |
| ApiHandler.GroupHandler.Listen | vk_api/api_handler.py:173-182 | the request carries the stored server, key and cursor; TS becomes the reply's "ts" before the checks; a reply without "ts" or "updates" raises AssertionError and schedules nothing; otherwise the updates are routed |
| BotMain.CityPoints | main.py:75-79 | the city term is one of 0, 0.3 or 5.3 points |
| BotMain.CountryPoints | main.py:80-86 | the country term is one of 0, 0.1, 2.6 or −4.9 points |
| BotMain.BirthPoints | main.py:87-93 | the birthday term is one of 0, 0.3, 1.3 or 1.8 points |
| BotMain.Score | main.py:72-97 | the score is the sum of the guarded terms and lies in [−4.9, 12.6] |
| BotMain.ScoreBoundsTight | main.py:72-97 | both score bounds are reached |
| BotMain.CountrySwing | main.py:82-86 | with the target's country known, a matching country scores 7.5 more than another one |
| BotMain.EqualDatesAreNotTheSameObject | main.py:90-93 | the same birthday held by two date objects earns only the year bonus |
| BotMain.YearlessBirthdaysShareAYear | main.py:92 | two birthdays without a year share year 1900 and earn the year bonus |
| BotMain.Candidates | main.py:68-99 | the scored copies are pool entries that pass the sex filter, each with its Score; every entry that passes appears |
| BotMain.CandidatesAppend | main.py:68-99 | scoring a pool split in two gives the candidates of the first part followed by those of the second, so candidates keep pool order |
| BotMain.CandidatesSingle | main.py:68-99 | one pool entry yields its scored copy, or nothing when the sex filter drops it |
| BotMain.FirstUnseen | main.py:105-112 | the for/else search returns the first unseen candidate of the list (every earlier one was seen), and returns nothing iff all were seen |
| BotMain.PickSpec | main.py:101-110 | the reference choice is unseen, no unseen candidate scores higher, and every unseen candidate before it scores lower |
| BotMain.FirstUnseenSorted | main.py:101-110 | the first unseen candidate after the stable sort is the reference choice on the unsorted candidates |
| BotMain.MaxScore | main.py:103 | `max(scores)` bounds every score and is one of them |
| BotMain.MinScore | main.py:104 | `min(scores)` bounds every score from below and is one of them |
| BotMain.Rate | main.py:113 | `(score - min) / (max - min) * 5` is 0 at the minimum and 5 at the maximum |
| BotMain.Choose | main.py:101-113 | the choice among scored candidates raises ValueError exactly when there are none, raises nothing but ValueError or ZeroDivisionError, and a found candidate is unseen |
| BotMain.BestMatch | main.py:65-116 | matching against an empty pool raises ValueError, the only exceptions are ValueError and ZeroDivisionError, and a match was not seen by the target |
| BotMain.RateBounds | main.py:113 | a rate inside the range is in [0, 5], 0 iff the score is the minimum and 5 iff it is the maximum |
| BotMain.ChooseFound | main.py:101-110 | the chosen candidate is unseen, no unseen candidate scores higher, and unseen candidates before it in pool order score lower |
| BotMain.ChooseExhausted | main.py:105-112 | nothing is returned iff there are candidates and all of them were seen |
| BotMain.ChooseFlatScores | main.py:102-113 | the division by zero happens iff an unseen candidate exists and all candidates share one score |
| BotMain.ChooseRate | main.py:102-113 | a match's rate is (score − min)/(max − min)·5 over all candidates, with min < max, lies in [0, 5], is 0 iff the score is the minimum and 5 iff it is the maximum |
| BotMain.BestMatchFound | main.py:65-110 | a match is a pool entry that passed the sex filter, carries its Score, was not seen, and no unseen passing pool entry scores higher |
| BotMain.BestMatchEmpty | main.py:69-103 | the empty-list ValueError happens iff the sex filter drops every pool entry |
| BotMain.BestMatchProgress | main.py:105-115 | after the pair is recorded, the next match for the same pool is a different person |
| BotMain.ScoreUser | main.py:72-97 | the step-by-step accumulation on the copy yields Score |
| BotMain.ScoreCandidates | main.py:68-99 | the scoring loop yields Candidates |
| BotMain.FindUnseen | main.py:105-112 | the search loop yields FirstUnseen |
| BotMain.GetUsersSuitable | main.py:65-116 | the outcome is BestMatch under the seen pairs before the call; the target is stored; on a match, the match is stored and exactly the pair (target, match) is added to the seen pairs, otherwise they are unchanged |
| BotMain.CollectOpen | main.py:26-29 | no more profiles are kept than there are hits, and only KeyError can stop it |
| BotMain.OpenProfilesMembers | main.py:26-29 | a profile is kept iff some hit carrying it is not marked closed |
| BotMain.CollectOpenAllFlagged | main.py:26-29 | when every hit has "is_closed", the pool gains exactly the open profiles in reply order, duplicates kept |
| BotMain.CollectOpenMissingFlag | main.py:27 | a hit without "is_closed" raises KeyError after the open profiles before it were added |
| BotMain.PoolFromBothSearches | main.py:20-29 | the pool gains the open status-1 profiles followed by the open status-6 profiles |
| BotMain.CollectReply | main.py:24-29 | a reply adds at most its hits; TypeError happens exactly for a None reply; a reply without "items" adds nothing and raises KeyError; a reply with items is filtered exactly as CollectOpen |
| BotMain.Gather | main.py:20-29 | given the search replies, the searches, in order, stop only with TypeError or KeyError; an empty list of searches adds nothing |
| BotMain.UserStore.constructor | database/models.py:4-6 | the user table starts with no users and no seen pairs |
| BotMain.CandidatePool.constructor | main.py:17 | the pool starts empty |
| BotMain.CandidatePool.AddOpen | main.py:26-29 | the loop appends what CollectOpen keeps and raises as it says |
| BotMain.CandidatePool.AddReply | main.py:24-26 | a reply without items raises TypeError (None) or KeyError; otherwise its hits are filtered |
| BotMain.CandidatePool.GetUsers | main.py:20-29 | the pool gains what the two searches yield, status 1 first; an exception stops it and keeps what was appended |
| BotMain.DigitChar | main.py:36 | a digit is rendered as a character between '0' and '9', which is '0' only for 0 |
| BotMain.Digits | main.py:36 | a natural number is rendered as a non-empty string of decimal digits without a leading zero |
| BotMain.IntToString | main.py:36 | a rendered integer consists of digits and a minus sign only |
| BotMain.ParseIntOfIntToString | main.py:36 | reading a rendered integer back gives the integer |
| BotMain.PhotoRef | main.py:36 | the attachment name starts with `photo`; PhotoRefRoundTrip reads it back |
| BotMain.PhotoRefRoundTrip | main.py:36 | `photo{owner}_{id}` can be read back into the owner and the photo id |
| BotMain.MostLikedPhotos | main.py:33-36 | there is one name per photo |
| BotMain.MostLikedPhotosSpec | main.py:35-36 | the names follow a permutation of the photos with like counts never increasing, equal counts kept in reply order, and each name reads back as (owner, that photo's id) |
| BotMain.Address | main.py:47-50 | there is an address line exactly when a country or a city is known, and when the country is known the line starts with its title |
| BotMain.AddressSeparator | main.py:47-50 | for titles without `/`, the line has a `/` iff both titles are non-empty, and then it splits there into the two titles; with only one title non-empty the line is exactly that title |

## Left out

- BotMain.Gather: a search is its decoded reply; the search call's own failures are not modelled: the AttributeError of an envelope without error and data, the exit on an unknown error code, and retries that never end (vk_api/api_handler.py:42-62). Only the failures of reading the reply (TypeError, KeyError) are.
- Network I/O is not modelled: the aiohttp session, URL building, `response.json()` and the HTTP reads (vk_api/api_handler.py:35-39, 174-177). A response is a value handed in: an envelope script for calls, a `PollResponse` for the long poll, a `SearchReply` per status for user searches.
- The rate limiter, `asyncio.sleep` (only counted), `asyncio.gather` in `complete_tasks`, `signal`/`exit` and the endless `run` loop are left out. These are concurrency and process control. Exiting is the `Exited` outcome.
- ApiHandler.Call: only requests that an envelope answers are recorded. When the script runs out during retries, the outcome is `Unanswered`, where the source would go on retrying.
- `send_message` with its random id, `Message.replay`, `Keyboard.__call__` (`json.dumps`), the singleton `__new__` and the environment configuration are left out. The group id is a constructor argument, and the registry starts with the single event name `message_new`.
- `get_user_by_id` is the `lookup` parameter. Its own request and failure modes are not modelled.
- A new-message event is modelled as its type and its message. Failures from events lacking an "object" or "message" are not modelled. Neither is the print for unsupported types.
- Decoded JSON values (`Value`) have no booleans and no floats. The one boolean the model keeps, a search hit's "is_closed" flag, is held outside `Value` as `SearchItem.isClosed`. `json.loads` of the payload and `datetime.fromtimestamp` of the date are not modelled: the payload arrives decoded and the date stays a timestamp.
- `strptime` is two function parameters. Pydantic validation of the other user fields is not modelled: a search hit carries an already built profile, so a birth-date error while building the pool is not modelled.
- BotMain.Score: IEEE float rounding of the sums is not modelled. Scores are exact tenths, so ties are exact, where floats reached by different sums can differ in the last bit.
- The in-place `users_suitable.sort` is modelled on values (`StableSort.SortDesc` on a sequence), not as an update of a shared list.
- The database (Tortoise ORM, `get_or_create`, `already_sees`) is the `UserStore` class: a set of stored ids and a set of (target id, candidate id) pairs.
- In `search`, only the address line is modelled, as the titles and the separator. The reply texts and their fixed Russian strings, the birth-date formatting, `photos[:3]` joined with commas, and the command handlers `registration` and `search_command` are left out.
- `get_most_liked_user_photos`: the photo request and the errors of a malformed reply are not modelled. A photo is its id and like count.
- The parameters of the user search (count, fields, age and photo filters) are not modelled.
