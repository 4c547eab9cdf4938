# xf-archive-telegram-bot: the incremental crawl controller

The bot mirrors one thread of the voz.vn XenForo 2 forum into a Telegram
channel. On every run of `fetchMessages` it does the following:

- reads the thread's watermark (page, post id) from the `stats` collection;
- fetches the stored page, then every page up to the newest one the forum
  reports;
- queues, in document order, each post whose id is above the stored one;
- writes back a new watermark;
- sends each queued message to the channel and clears the queue.

This project models that controller in Dafny, following `main.go`.

Modules:

- `Strconv` (strconv.dfy): the parts of Go's `strconv` the controller
  depends on. `ParseInt(s, 0, 64)` covers signs, the `0b`/`0o`/`0x`/`0`
  prefixes, underscores, and int64 clamping on overflow. A syntax error
  reads as 0, because the callers drop the error. The module also has
  `Atoi`, `Itoa`, and the round trip between them.
- `Links` (links.dfy): the pure helpers. They cover the page address
  (`buildVozLink`, `buildXfLinkWithPageParam`), the thread id taken from
  the thread link, the post id taken from `data-content`, and the text of a
  channel message (`makeMessage`).
- `Crawl` (crawl.dfy): the specification functions and their lemmas:
  - the entities;
  - what one `fetchPage` call queues and returns (`ScanPage`);
  - what the page loop accumulates (`SweepPages`);
  - the state a whole `fetchMessages` call leaves (`Run`), and how it ends
    (`Outcome`).
- `XfBot` (bot.dfy): class `Bot`. It holds the package state: the `stats`
  collection as a map, the global `messages` slice as a sequence, and the
  texts handed to `b.Send`. Its methods run the Go code step by step, with
  loops and invariants, and are proved equal to the `Crawl` functions.
- `RunProperties` (run_properties.dfy): properties of whole passes and of
  consecutive passes.

The forum is a map from address to document. An address outside the map
is a request that failed, where `getDocument` returns nil. A document holds
the attribute and text values that `fetchPage`'s selectors read from each
`article.message`, plus the text of the page-navigation link.

Each way the Go code aborts is an outcome. The state is left as the
package variables would hold it at that point:

- `NoThreadId`: the link has no `.`, so `strings.Split(...)[1]` panics.
- `NoRecord`: `getLastInfo` finds no record and calls `log.Fatal`.
- `DuplicateKey`: `initCollection` calls `log.Fatal`.
- `PostIdPanic`: a `data-content` shorter than five characters makes
  `postIdStr[5:]` panic.
- `Hangs`: the page loop does not end normally, because its counter
  cannot pass the int64 maximum.

At its edges the code behaves as follows:

- **A thread without a record aborts.** `initCollection` runs only when an
  existing record has post id 0. It then inserts a second record for the
  thread, and building the unique index on `thread_id` fails, so such a
  pass always aborts before fetching anything (`StoredZeroAborts`).
- **A page without page navigation reports 0 pages.** goquery's `Find`
  never returns nil, so `Atoi("")` gives 0. The page written back can fall
  to 0 (`MissingPageNavZeroesPage`).
- **The watermark is the last id read.** It is the id of the last article
  on the last page fetched (`LastIdIsNotMaximum`, `PublishedWatermark`).
- **A failed fetch has two effects, depending on which fetch fails.**
  - When the first fetch fails, nothing is written
    (`FailedFetchIdles`).
  - When the newest page fails, post id 0 is written. Every later pass
    then aborts (`FailedLastPageWedgesThread`).
- **The stored page is fetched twice when more pages exist.** The queue is
  not deduplicated, so its new posts are sent twice
  (`StoredPageQueuedTwice`).
- **A post whose id cannot be parsed reads as id 0.** That 0 still
  becomes the last id when the post is the page's last
  (`PostIdUnreadable`, `PostIdSyntaxError`).
- **A re-run is quiet only under conditions.** It changes nothing only
  when the page named by the record is unchanged and its last post holds
  the highest id (`UnchangedThreadIsQuiet`, `SecondPassIsQuiet`).

## Model

| member | source | states |
|---|---|---|
| Strconv.ParseInt | main.go:82 | `strconv.ParseInt(s, 0, 64)` with the error dropped: always an int64 (overflow clamps), and the empty string reads as 0 |
| Strconv.ParseIntNotANumber | main.go:120 | a value that starts with neither a sign nor a digit is a syntax error and reads as 0 |
| Strconv.ParseIntPlus | main.go:82 | a single leading `+` does not change the value read |
| Strconv.ParseIntItoa | main.go:82 | ParseInt in base 0 or 10 reads back every int64 that Itoa printed |
| Strconv.ParseIntNatDigits | main.go:82 | ParseInt reads back a non-negative int64 printed in decimal |
| Strconv.ParseIntMinusNatDigits | main.go:82 | ParseInt reads back a negative int64 printed in decimal after `-` |
| Strconv.ParseUintNatDigits | main.go:120 | ParseUint, in base 0 or 10, reads back the magnitude printed in decimal |
| Strconv.ParseUint | main.go:120 | `strconv.ParseUint` as ParseInt calls it: the empty string is a syntax error, and an accepted value fits in uint64 |
| Strconv.ScanDigitsBound | main.go:120 | ParseUint's digit loop stops with a range error rather than accept a value beyond the uint64 range, and never decreases the value |
| Strconv.ParseIntSyntaxError | main.go:120 | whenever ParseUint rejects the unsigned part as a syntax error, ParseInt's value, error dropped, is 0 |
| Strconv.ParseUintTrailingLetter | main.go:120 | `12x` is a syntax error in base 0 |
| Strconv.ParseUintDoubledUnderscore | main.go:120 | `1__2` is a syntax error in base 0: the digits are read, but the underscores are misplaced |
| Strconv.ParseUintBarePrefix | main.go:120 | `0x` is a syntax error in base 0 |
| Strconv.BasePrefix | main.go:120 | base 0 infers 10 exactly when the value does not start with `0`, and then keeps all of it |
| Strconv.Atoi | main.go:152 | `strconv.Atoi` on a 64-bit platform always gives an int64 |
| Strconv.Itoa | main.go:77 | `strconv.Itoa` is never empty and starts with `-` exactly for negative numbers |
| Strconv.ItoaChars | main.go:77 | Itoa writes only decimal digits and a leading minus sign |
| Strconv.ItoaInjective | main.go:77 | distinct int64 values print differently |
| Links.BuildVozLink | main.go:72-74 | the thread address is the site address and `/t/` followed by the whole thread link |
| Links.BuildXfLinkWithPageParam | main.go:76-78 | the page address starts with the thread address and has room for exactly `/`, `page-` and the page number in decimal |
| Links.PageUrlShape | main.go:72-78 | the address fetchPage requests is `https://voz.vn/t/` + link + `/page-` + the page number in decimal |
| Links.PageUrlSuffix | main.go:76-78 | the page number is exactly the text after the thread address and `/page-` |
| Links.PageUrlInjective | main.go:76-78 | two int64 page numbers of one thread never share an address |
| Links.SecondField | main.go:81 | there is no second `.`-field (the index panics) exactly when the link has no `.`; a field never contains `.` |
| Links.ThreadIdOf | main.go:81-82 | the thread id is missing exactly when the link has no `.`, and otherwise is an int64 |
| Links.SecondFieldOf | main.go:81 | the second field of `<slug>.<field>[.<more>]` is field |
| Links.ThreadIdRoundTrip | main.go:81-82 | a link `<slug>.<id>` or `<slug>.<id>.<more>` yields id, for any slug without `.` |
| Links.PostIdOf | main.go:119-120 | the post id needs at least five characters of `data-content` and is an int64 |
| Links.PostIdRoundTrip | main.go:119-120 | XenForo's `post-<id>` (any five-character prefix) yields id |
| Links.PostIdUnreadable | main.go:120 | nothing readable after the first five characters gives post id 0 |
| Links.PostIdSyntaxError | main.go:119-120 | every `data-content` whose text after the first five characters is a syntax error for ParseUint (after an optional sign) gives post id 0 |
| Links.PostIdTrailingLetter | main.go:119-120 | `post-12x` (any five-character prefix) gives post id 0 |
| Links.PostIdDoubledUnderscore | main.go:119-120 | `post-1__2` (any five-character prefix) gives post id 0 |
| Links.PostIdBarePrefix | main.go:119-120 | `post-0x` (any five-character prefix) gives post id 0 |
| Links.MakeMessage | main.go:236-238 | the message's length is that of its fixed text plus the printed thread id and time, the author, the body and the link |
| Links.MakeMessageHeader | main.go:236-238 | every channel message starts with `Thread #<id>` and a line break |
| Links.MakeMessageNamesThread | main.go:236-238 | the thread id can be parsed back from the message header |
| Links.MakeMessageEndsWithLink | main.go:236-238 | every channel message ends with `See more: ` and the post's permalink |
| Links.MakeMessageCarriesBody | main.go:236-238 | the post body stands unchanged after `said: ` and a line break, right before the permalink line |
| Crawl.IntactSpec | main.go:118-120 | every article before the panic point has a post id, and the one at it has none |
| Crawl.IntactStopsAt | main.go:118-120 | conversely, the first article without a post id is where fetchPage panics |
| Crawl.ToMessage | main.go:122-140 | the queued message carries the article's post id, body, permalink and author name, with an int64 time and user id |
| Crawl.ScanPage | main.go:110-158 | a failed fetch queues nothing and returns (0, 1); a panic only happens on a page that was fetched; otherwise the page count is Atoi of the page navigation |
| Crawl.QueuedNewer | main.go:123 | every queued message has an id above the stored one |
| Crawl.QueuedComplete | main.go:118-141 | every article with an id above the stored one has its message queued |
| Crawl.QueuedSound | main.go:118-141 | every queued message comes from an article with an id above the stored one |
| Crawl.QueuedMembers | main.go:118-141 | a message is queued if and only if an article above the stored id yields it |
| Crawl.QueuedPrefix | main.go:140 | what earlier articles queued stays at the head of the queue: later articles only append |
| Crawl.QueuedInOrder | main.go:118-141 | two new posts are queued in document order |
| Crawl.Prepend | main.go:91-95 | a fetch ahead of the rest of the loop queues its messages ahead of the rest, and the loop panics exactly when the rest does |
| Crawl.SweepPages | main.go:91-95 | an empty page range queues nothing and keeps the last id; a panic on the first page ends the loop with that page's queue |
| Crawl.LastIdIsNotMaximum | main.go:121 | for `post-<hi>` then `post-<lo>` around the stored id, hi is queued and the smaller lo, the last id read, is returned |
| Crawl.Updated | main.go:219-234 | updateInfo sets page and post id of an existing record, leaves every other record alone, and adds no record (no upsert) |
| Crawl.Inserted | main.go:195-217 | initCollection adds `{page 1, post_id 0}` and keeps every other record; it fails exactly when the thread already has a record |
| Crawl.Render | main.go:101-105 | one text is sent per queued message |
| Crawl.RenderAt | main.go:102-104 | the i-th text sent is makeMessage of the i-th queued message |
| Crawl.RenderAppend | main.go:102-104 | sending a queue sends its parts one after the other |
| Crawl.SweepLastId | main.go:92-93 | the page loop ends with the id the fetch of the newest page returned |
| Crawl.ScanPageQueuesOnlyNewPosts | main.go:118-141 | one fetchPage call, even one that panics, queues only posts above the stored id |
| Crawl.SweepQueuesOnlyNewPosts | main.go:91-95 | the page loop queues only posts above the stored id |
| Crawl.FailedLastPageZeroesId | main.go:92-93 | a failed fetch of the loop's last page ends the loop with id 0 |
| Crawl.Run | main.go:80-108 | a pass never adds or removes a thread's record, and a pass that does not publish writes nothing and sends nothing |
| XfBot.Bot.constructor | main.go:56 | the bot starts with the given collection, an empty queue and nothing sent |
| XfBot.Bot.GetLastInfo | main.go:180-193 | the thread's record, or None (log.Fatal) exactly when there is none |
| XfBot.Bot.InitCollection | main.go:195-217 | inserts `{page 1, post_id 0}` when absent; otherwise fails (log.Fatal), and the map keeps its one record for the thread |
| XfBot.Bot.UpdateInfo | main.go:219-234 | the collection becomes `Updated(old, thread, page, post id)`, with no upsert |
| XfBot.Bot.FetchPage | main.go:110-158 | appends exactly ScanPage's messages after the old queue, and returns its panic, last id and page count; a failed fetch returns (0, 1) |
| XfBot.Bot.FetchPages | main.go:91-95 | the loop over pages lo..hi appends SweepPages' messages and returns the last id it read |
| XfBot.Bot.Publish | main.go:101-106 | every queued message is sent once, in queue order, after what was sent before, and the queue is emptied |
| XfBot.Bot.FetchMessages | main.go:80-108 | one call leaves exactly the state and outcome Run specifies |
| RunProperties.StoredZeroAborts | main.go:85-87 | a record with post_id 0 makes the pass abort in initCollection, before anything is fetched, queued, written back or sent |
| RunProperties.FailedFetchIdles | main.go:89-90 | a failed fetch of the stored page writes, queues and sends nothing |
| RunProperties.IdleOnlyQueues | main.go:89-90 | once the stored page is scanned without a panic, the pass ends Idle exactly when that scan returned id 0; the store and the sends are then unchanged, and that page's new posts stay queued |
| RunProperties.PublishedShape | main.go:89-107 | a published pass writes the page count and the loop's last id, sends the old queue plus both fetches' posts, and empties the queue |
| RunProperties.PassQueuesOnlyNewPosts | main.go:89-95 | everything a pass queues has an id above the stored one |
| RunProperties.PublishedSendsQueueThenNewPosts | main.go:101-105 | a published pass sends the earlier queue first, then only posts above the stored id, and ends with an empty queue |
| RunProperties.PublishedWatermark | main.go:91-99 | the post id written back is the last id of the newest page when the loop ran, otherwise that of the stored page |
| RunProperties.LoopRescansStoredPage | main.go:89-93 | when more pages exist, the loop starts with a second scan of the stored page |
| RunProperties.StoredPageQueuedTwice | main.go:89-93 | the stored page's new posts are then sent twice |
| RunProperties.FailedLastPageWedgesThread | main.go:92-99 | a failed fetch of the newest page writes post id 0, after which every pass aborts |
| RunProperties.MissingPageNavZeroesPage | main.go:145-154 | a stored page without page navigation makes the pass write page 0 |
| RunProperties.QueuedNothingNew | main.go:123 | a page with no id above the stored one queues nothing |
| RunProperties.UnchangedThreadIsQuiet | main.go:80-108 | a pass over an unchanged thread, with nothing queued, changes and sends nothing |
| RunProperties.SecondPassIsQuiet | main.go:80-108 | a second pass over an unchanged site right after a published one changes and sends nothing, when the record's page still holds its highest id last |

## Left out

- `getDocument` and the HTTP request (main.go:241-271) are not modelled. The forum is a map from address to document, and a missing address stands for a nil document.
- goquery's HTML selection is not modelled. An article gives the values its selectors read, and `""` stands for a missing attribute.
- The page-count text is the text of the `.pageNav-main` element found at main.go:147-148.
- The `Html()` error at main.go:149-151 is left out.
- The MongoDB driver, contexts and timeouts are not modelled. Only their effect on the collection is kept, as a map with one record per thread.
- The unique index on `thread_id` is not modelled. `initCollection` only runs for a thread that already has a record, so building the index fails, and that failure is the `DuplicateKey` outcome.
- XfBot.Bot.InitCollection: the duplicate `{page 1, post_id 0}` record that InsertOne stores (main.go:199-206) before CreateOne fails (main.go:211-215) is not represented, because the map holds one record per thread. The map is left as it was.
- Crawl.Inserted: None stands for the failed call; the duplicate record the Go code stores before failing is not represented, for the same reason.
- RunProperties.StoredZeroAborts: for the same reason, the state it states as unchanged does not include the duplicate record the Go code leaves in the collection.
- XfBot.Bot.UpdateInfo assumes the server applies both `$set` members of the update document at main.go:224.
- Telegram setup, chat lookup, the interactive handler, and the scheduling with cron (main.go:273-316) are not modelled. Overlapping passes would be concurrent.
- The environment variables (main.go:58-70) are not modelled.
- `b.Send` is an append to the log of sent texts. Its result and errors are dropped, as the Go code drops them, and Markdown rendering is left out.
- `log.Fatal` and panics end a pass with an outcome, not with process exit. The state an outcome carries is what the package variables hold at that point.
- Logging is left out throughout.
- XfBot.Bot.FetchMessages does not run the page loop of the `Hangs` outcome, which does not end normally. It stops before the loop. What that loop does once its counter wraps to the negative page numbers, including a panic in one of its fetches, is not modelled.
- Links.MakeMessage writes the post time as its Unix seconds in decimal. Go's `%s` formatting of `time.Time` is not modelled. Lemmas about the message therefore state its header, thread id, body and permalink, not the time text.
- Go strings are byte sequences, but the model works on characters. The two agree for the ASCII attribute values the slicing at main.go:120 reads.
- Go's `int` is taken to be 64 bits wide.
