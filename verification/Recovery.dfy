/** One recovery pass of src/slackbot/user_session: `process`, `recover_pages`,
    `recover_channel` and a round of `recover`, in place on a store. What Slack
    answers, and what becomes of each submission, is part of the input; what other
    tasks do meanwhile is the subject of Protocol. */
module RecoveryPass {
  import opened Harvest
  import opened Snapshots
  import opened StoreObject

  const MAX_PAGE: nat := 1000
  const MAX_CURSOR: nat := 4096

  const MESSAGE_BYTES: nat := 64 * 1024
  const MAX_NAME: nat := 256

  /** One element of a history page: whether it is a JSON object at all and fits the
      message schema, its fields, the octets of its text and of its sender's name,
      whether the worker confirms it in time, and the clock before and after. */
  datatype Item = Item(
    wellFormed: bool, parses: bool,
    kind: Option<string>, hidden: bool, subtype: Option<string>,
    ts: Option<string>, thread: Option<string>, replies: nat,
    text: Option<nat>, sender: nat, delivered: bool, at: int, done: int)

  datatype Error = Authentication | RateLimited | ThreadNotFound | Other

  datatype Reply = Refused(error: Error) | Page(messages: Option<seq<Item>>, next: string, more: bool)

  datatype Result = Ok | Err(error: Error)

  /** The seconds a pass asks for, and the window that the store prunes by. */
  datatype Range = Range(oldest: int, through: int, window: int)

  /** The channel of a pass and, while replies are read, the thread. */
  datatype Source = Source(id: string, thread: Option<string>)

  predicate InRange(item: Item, range: Range) {
    && item.ts.Some? && MessageTimestamp(item.ts.value).Some?
    && range.oldest <= MessageTimestamp(item.ts.value).value <= range.through
  }

  /** `normalise` keeps it; pages may leave the kind out. */
  predicate Normal(item: Item) {
    && (item.kind.None? || item.kind == Some("message")) && !item.hidden
    && (item.subtype.None? || item.subtype.value in {"bot_message", "me_message", "file_share", "thread_broadcast"})
    && item.ts.Some? && ValidTs(item.ts.value) && item.parses
  }

  /** `prepare_message` keeps it, given a valid timestamp. */
  predicate Prepared(id: string, item: Item) {
    item.text.Some? && item.text.value <= MESSAGE_BYTES && 0 < |id| <= MAX_NAME && item.sender <= MAX_NAME
  }

  function Parent(item: Item, thread: Option<string>): Option<string>
    requires item.ts.Some?
  {
    var explicit := if item.thread.Some? then item.thread else thread;
    if explicit.Some? then explicit else if item.replies > 0 then Some(item.ts.value) else None
  }

  // ------------------------------------------------------------------- one message

  ghost function Remembered(s: Snapshot, src: Source, item: Item, window: int): Snapshot
    requires item.ts.Some?
  {
    var parent := Parent(item, src.thread);
    if parent.Some? then RememberThread(s, src.id, parent.value, item.at, window) else s
  }

  /** What becomes of a message: discarded by a filter, found in the duplicate log,
      confirmed by the worker, or not. */
  datatype Fate = Discarded | Known | Delivered | Lost

  /** After `remember_thread`, which duplicates reach too. */
  ghost function Noted(s: Snapshot, src: Source, item: Item, window: int): Snapshot {
    if Normal(item) then Remembered(s, src, item, window) else s
  }

  ghost function FateOf(s: Snapshot, src: Source, item: Item, window: int): Fate {
    if !Normal(item) then Discarded
    else if Msg(src.id, item.ts.value) in SeenMsgs(Noted(s, src, item, window).seen) then Known
    else if !Prepared(src.id, item) then Discarded
    else if item.delivered then Delivered
    else Lost
  }

  /** What `process` leaves, and whether it succeeds. */
  ghost function Processing(s: Snapshot, src: Source, item: Item, window: int): (Snapshot, bool) {
    var r := Noted(s, src, item, window);
    match FateOf(s, src, item, window)
    case Delivered => (Processed(r, Msg(src.id, item.ts.value), Parent(item, src.thread), item.done, window), true)
    case Lost => (WithFailed(r, src.id, true), false)
    case _ => (r, true)
  }

  /** The fold of `process` over a sequence, and whether all of it succeeds. */
  ghost function After(s: Snapshot, src: Source, items: seq<Item>, window: int): Snapshot {
    if items == [] then s
    else Processing(After(s, src, items[..|items| - 1], window), src, items[|items| - 1], window).0
  }

  ghost predicate AllOk(s: Snapshot, src: Source, items: seq<Item>, window: int) {
    items != [] ==>
      && AllOk(s, src, items[..|items| - 1], window)
      && Processing(After(s, src, items[..|items| - 1], window), src, items[|items| - 1], window).1
  }

  lemma {:induction false} AllOkPrefix(s: Snapshot, src: Source, items: seq<Item>, n: nat, window: int)
    requires AllOk(s, src, items, window) && n <= |items|
    ensures AllOk(s, src, items[..n], window)
  {
    if n < |items| {
      AllOkPrefix(s, src, items[..|items| - 1], n, window);
      assert items[..|items| - 1][..n] == items[..n];
    } else {
      assert items[..n] == items;
    }
  }

  /** The channel's `failed` flag. */
  predicate Blamed(s: Snapshot, id: string) { id in s.channels && s.channels[id].failed }

  /** Same channels, checkpoints and flags. */
  ghost predicate SameFlags(s: Snapshot, r: Snapshot) {
    SameCheckpoints(s, r) && forall id :: Blamed(r, id) <==> Blamed(s, id)
  }

  lemma RememberKeepsFlags(s: Snapshot, id: string, parent: string, at: int, window: int)
    ensures SameFlags(s, RememberThread(s, id, parent, at, window))
  {
  }

  lemma ProcessedKeepsFlags(s: Snapshot, m: Msg, thread: Option<string>, at: int, window: int)
    ensures SameFlags(s, Processed(s, m, thread, at, window))
  {
  }

  lemma FlagsChain(s: Snapshot, r: Snapshot, t: Snapshot)
    requires SameFlags(s, r) && SameFlags(r, t)
    ensures SameFlags(s, t)
  {
  }

  lemma FailedBlames(s: Snapshot, r: Snapshot, id: string)
    requires SameFlags(s, r)
    ensures SameCheckpoints(s, WithFailed(r, id, true))
    ensures forall x :: Blamed(WithFailed(r, id, true), x) <==> Blamed(s, x) || (x == id && id in s.channels)
  {
  }

  /** Processing moves no checkpoint, and blames the channel exactly when it fails. */
  lemma ProcessingKeepsCheckpoints(s: Snapshot, src: Source, item: Item, window: int)
    ensures var (r, ok) := Processing(s, src, item, window);
      && SameCheckpoints(s, r)
      && (ok ==> SameFlags(s, r))
      && (!ok ==> forall id :: Blamed(r, id) <==> Blamed(s, id) || (id == src.id && id in s.channels))
  {
    var (t, ok) := Processing(s, src, item, window);
    if Normal(item) {
      var m, parent, r := Msg(src.id, item.ts.value), Parent(item, src.thread), Remembered(s, src, item, window);
      if parent.Some? {
        RememberKeepsFlags(s, src.id, parent.value, item.at, window);
      }
      assert SameFlags(s, r);
      if m in SeenMsgs(r.seen) || !Prepared(src.id, item) {
        assert t == r;
      } else if item.delivered {
        ProcessedKeepsFlags(r, m, parent, item.done, window);
        FlagsChain(s, r, t);
      } else {
        FailedBlames(s, r, src.id);
      }
    }
  }

  lemma {:induction false} AfterKeepsCheckpoints(s: Snapshot, src: Source, items: seq<Item>, window: int)
    ensures SameCheckpoints(s, After(s, src, items, window))
    ensures AllOk(s, src, items, window) ==> SameFlags(s, After(s, src, items, window))
  {
    if items != [] {
      var init := items[..|items| - 1];
      AfterKeepsCheckpoints(s, src, init, window);
      ProcessingKeepsCheckpoints(After(s, src, init, window), src, items[|items| - 1], window);
    }
  }

  // ---------------------------------------------------------------------- the pages

  /** A page that `recover_pages` can read to its end. */
  predicate Readable(r: Reply) {
    && r.Page? && r.messages.Some? && |r.messages.value| <= MAX_PAGE
    && (forall i :: 0 <= i < |r.messages.value| ==> r.messages.value[i].wellFormed)
    && |r.next| <= MAX_CURSOR && (r.next == "" ==> !r.more)
  }

  function Wanted(items: seq<Item>, range: Range): seq<Item> {
    if items == [] then []
    else
      var last := items[|items| - 1];
      Wanted(items[..|items| - 1], range) + if InRange(last, range) then [last] else []
  }

  /** Everything in range on the first `n` pages, in order. */
  function Fetched(replies: nat -> Reply, n: nat, range: Range): seq<Item> {
    if n == 0 then []
    else
      var r := replies(n - 1);
      Fetched(replies, n - 1, range) +
      if r.Page? && r.messages.Some? then Wanted(r.messages.value, range) else []
  }

  /** The first `n` pages can be read, each leads to another one, none was asked for
      before. */
  ghost predicate Leads(replies: nat -> Reply, n: nat) {
    && (forall i :: 0 <= i < n ==> Readable(replies(i)) && replies(i).next != "")
    && forall i, j :: 0 <= i < j < n ==> replies(i).next != replies(j).next
  }

  /** The chain ends at page `n` and everything in range was processed successfully. */
  ghost predicate Complete(s: Snapshot, src: Source, replies: nat -> Reply, n: nat, range: Range) {
    && n > 0 && Leads(replies, n - 1)
    && Readable(replies(n - 1)) && replies(n - 1).next == ""
    && AllOk(s, src, Fetched(replies, n, range), range.window)
  }

  /** What success takes, in terms of the pages: each is a list of at most 1000 objects
      with a cursor of at most 4096 octets; only the last one has no cursor, and does not
      claim that there is more; no cursor occurs twice; everything in range succeeded. */
  lemma CompleteMeans(s: Snapshot, src: Source, replies: nat -> Reply, n: nat, range: Range)
    ensures Complete(s, src, replies, n, range) <==>
      && n > 0 && AllOk(s, src, Fetched(replies, n, range), range.window)
      && (forall i :: 0 <= i < n ==>
            && replies(i).Page? && replies(i).messages.Some? && |replies(i).messages.value| <= 1000
            && (forall k :: 0 <= k < |replies(i).messages.value| ==> replies(i).messages.value[k].wellFormed)
            && |replies(i).next| <= 4096 && (replies(i).next == "" <==> i == n - 1))
      && !replies(n - 1).more
      && forall i, j :: 0 <= i < j < n ==> replies(i).next != replies(j).next
  {
  }

  /** Page `n` cannot be read. */
  lemma UnreadableIsIncomplete(s: Snapshot, src: Source, replies: nat -> Reply, n: nat, range: Range)
    requires Leads(replies, n) && !Readable(replies(n))
    ensures forall k: nat :: !Complete(s, src, replies, k, range)
  {
  }

  /** Not complete within `n` pages. */
  ghost predicate Hopeless(s: Snapshot, src: Source, replies: nat -> Reply, n: nat, range: Range) {
    forall k: nat :: k <= n ==> !Complete(s, src, replies, k, range)
  }

  lemma EndlessIsHopeless(s: Snapshot, src: Source, replies: nat -> Reply, n: nat, range: Range)
    requires Leads(replies, n)
    ensures Hopeless(s, src, replies, n, range)
  {
  }

  function Cursors(replies: nat -> Reply, n: nat): set<string> {
    set i | 0 <= i < n && replies(i).Page? :: replies(i).next
  }

  /** A page that leads to another: to one not asked for before, or into a circle. */
  lemma LeadsOn(replies: nat -> Reply, n: nat)
    requires Leads(replies, n) && Readable(replies(n)) && replies(n).next != ""
    ensures Leads(replies, n + 1) <==> replies(n).next !in Cursors(replies, n)
    ensures Cursors(replies, n + 1) == Cursors(replies, n) + {replies(n).next}
  {
  }

  lemma CircleIsHopeless(s: Snapshot, src: Source, replies: nat -> Reply, n: nat, max: nat, range: Range)
    requires Leads(replies, n) && Readable(replies(n)) && replies(n).next != "" && !Leads(replies, n + 1)
    ensures Hopeless(s, src, replies, max, range)
  {
  }

  lemma FetchedGrows(replies: nat -> Reply, n: nat, range: Range)
    ensures Fetched(replies, n, range) <= Fetched(replies, n + 1, range)
  {
  }

  lemma PrefixChain(a: seq<Item>, b: seq<Item>, c: seq<Item>)
    requires a <= b && b <= c
    ensures a <= c
  {
  }

  lemma {:induction false} FetchedPrefix(replies: nat -> Reply, n: nat, k: nat, range: Range, all: seq<Item>)
    requires n <= k && all == Fetched(replies, k, range)
    ensures Fetched(replies, n, range) <= all
    decreases k - n
  {
    if n < k {
      FetchedGrows(replies, n, range);
      FetchedPrefix(replies, n + 1, k, range, all);
      PrefixChain(Fetched(replies, n, range), Fetched(replies, n + 1, range), all);
    }
  }

  lemma {:induction false} WantedPrefix(items: seq<Item>, i: nat, range: Range)
    requires i <= |items|
    ensures Wanted(items[..i], range) <= Wanted(items, range)
  {
    if i < |items| {
      WantedPrefix(items[..|items| - 1], i, range);
      assert items[..|items| - 1][..i] == items[..i];
    } else {
      assert items[..i] == items;
    }
  }

  lemma AllOkOfPart(s: Snapshot, src: Source, some: seq<Item>, all: seq<Item>, window: int)
    requires some <= all && AllOk(s, src, all, window)
    ensures AllOk(s, src, some, window)
  {
    AllOkPrefix(s, src, all, |some|, window);
    assert all[..|some|] == some;
  }

  /** The first `i` items of page `n`, after the pages before it. */
  lemma PartlyFetched(replies: nat -> Reply, n: nat, i: nat, k: nat, range: Range)
    requires n < k && replies(n).Page? && replies(n).messages.Some? && i <= |replies(n).messages.value|
    ensures Fetched(replies, n, range) + Wanted(replies(n).messages.value[..i], range)
      <= Fetched(replies, k, range)
  {
    WantedPrefix(replies(n).messages.value, i, range);
    FetchedPrefix(replies, n + 1, k, range, Fetched(replies, k, range));
  }

  /** A failure on page `n`, after the first `i` of its items. */
  lemma FailureIsIncomplete(s: Snapshot, src: Source, replies: nat -> Reply, n: nat, i: nat, range: Range)
    requires Leads(replies, n) && replies(n).Page? && replies(n).messages.Some? && i <= |replies(n).messages.value|
    requires !AllOk(s, src, Fetched(replies, n, range) + Wanted(replies(n).messages.value[..i], range), range.window)
    ensures forall k: nat :: !Complete(s, src, replies, k, range)
  {
    var some := Fetched(replies, n, range) + Wanted(replies(n).messages.value[..i], range);
    forall k: nat ensures !Complete(s, src, replies, k, range) {
      if 0 < k <= n {
        assert replies(k - 1).next != "";
      } else if Complete(s, src, replies, k, range) {
        PartlyFetched(replies, n, i, k, range);
        AllOkOfPart(s, src, some, Fetched(replies, k, range), range.window);
      }
    }
  }

  datatype PageEnd = More(next: string) | Last | Stopped(error: Error)

  /** Everything processed once `k` items of a page have been looked at. */
  function Through(fetched: seq<Item>, items: seq<Item>, k: nat, range: Range): seq<Item>
    requires k <= |items|
  {
    fetched + Wanted(items[..k], range)
  }

  /** Reading stops after `k` items: the next one is no object, the cursor is none, or
      the last one looked at was not processed. */
  ghost predicate StopsAfter(s: Snapshot, src: Source, items: seq<Item>, reply: Reply, fetched: seq<Item>, k: nat,
                             range: Range)
    requires reply.Page? && k <= |items|
  {
    && (forall i :: 0 <= i < k ==> items[i].wellFormed)
    && if AllOk(s, src, Through(fetched, items, k, range), range.window) then
         if k < |items| then !items[k].wellFormed else |reply.next| > MAX_CURSOR || (reply.next == "" && reply.more)
       else k > 0 && AllOk(s, src, Through(fetched, items, k - 1, range), range.window)
  }

  /** A page is not read to its end, with `all` processed by then. */
  ghost predicate PageStops(s: Snapshot, src: Source, reply: Reply, fetched: seq<Item>, all: seq<Item>, range: Range) {
    AllOk(s, src, fetched, range.window) &&
    if reply.Refused? || reply.messages.None? || |reply.messages.value| > MAX_PAGE then all == fetched
    else
      var items := reply.messages.value;
      exists k: nat :: k <= |items|
        && all == Through(fetched, items, k, range) && StopsAfter(s, src, items, reply, fetched, k, range)
  }

  /** The page cannot be read to its end, or one of its items is not processed. */
  ghost predicate PageFails(s: Snapshot, src: Source, reply: Reply, fetched: seq<Item>, range: Range) {
    !Readable(reply) || exists i ::
      && 0 <= i <= |reply.messages.value|
      && !AllOk(s, src, fetched + Wanted(reply.messages.value[..i], range), range.window)
  }

  lemma StoppingIsFailing(s: Snapshot, src: Source, reply: Reply, fetched: seq<Item>, all: seq<Item>, range: Range)
    requires PageStops(s, src, reply, fetched, all, range)
    ensures PageFails(s, src, reply, fetched, range)
  {
    if Readable(reply) {
      var items := reply.messages.value;
      var k: nat :| k <= |items|
        && all == Through(fetched, items, k, range) && StopsAfter(s, src, items, reply, fetched, k, range);
      assert !AllOk(s, src, fetched + Wanted(items[..k], range), range.window);
    }
  }

  lemma FailingIsHopeless(s: Snapshot, src: Source, replies: nat -> Reply, n: nat, max: nat, range: Range)
    requires Leads(replies, n)
    requires PageFails(s, src, replies(n), Fetched(replies, n, range), range)
    ensures Hopeless(s, src, replies, max, range)
  {
    if Readable(replies(n)) {
      var items := replies(n).messages.value;
      var before := Fetched(replies, n, range);
      var i :| 0 <= i <= |items| && !AllOk(s, src, before + Wanted(items[..i], range), range.window);
      FailureIsIncomplete(s, src, replies, n, i, range);
    } else {
      UnreadableIsIncomplete(s, src, replies, n, range);
    }
  }

  /** The cursor sent with page `i`. */
  function Cursor(replies: nat -> Reply, i: nat): string {
    if i > 0 && replies(i - 1).Page? then replies(i - 1).next else ""
  }

  /** The cursors of the first `n` requests. */
  function Requests(replies: nat -> Reply, n: nat): (r: seq<string>)
    ensures |r| == n
  {
    if n == 0 then [] else Requests(replies, n - 1) + [Cursor(replies, n - 1)]
  }

  /** Pages were requested along the chain of cursors. */
  ghost predicate Requested(asked: seq<string>, replies: nat -> Reply, max: nat) {
    |asked| <= max && asked == Requests(replies, |asked|) && (asked != [] ==> Leads(replies, |asked| - 1))
  }

  /** All of `n` pages was processed, and the last one leads into a circle, or there
      would be one page too many. */
  ghost predicate GivesUp(s: Snapshot, n: nat, handled: seq<Item>, src: Source, replies: nat -> Reply, max: nat,
                          range: Range)
  {
    && handled == Fetched(replies, n, range) && AllOk(s, src, handled, range.window)
    && (|| (n == max && Leads(replies, n))
        || (n > 0 && Readable(replies(n - 1)) && replies(n - 1).next in Cursors(replies, n - 1) - {""}))
  }

  /** The error after `n` requests, and what was processed by then: Slack's own error
      exactly if it refused the last request, otherwise a local one. */
  ghost predicate PagesError(s: Snapshot, error: Error, n: nat, handled: seq<Item>, src: Source,
                             replies: nat -> Reply, max: nat, range: Range)
  {
    && n <= max && (n > 0 ==> Leads(replies, n - 1))
    && error == (if n > 0 && replies(n - 1).Refused? then replies(n - 1).error else Other)
    && (|| (n > 0 && PageStops(s, src, replies(n - 1), Fetched(replies, n - 1, range), handled, range))
        || GivesUp(s, n, handled, src, replies, max, range))
  }

  /** From `s` to `d`: success is exactly that the chain ended in time with everything
      processed. */
  ghost predicate PagesRead(s: Snapshot, d: Snapshot, r: Result, asked: seq<string>, handled: seq<Item>, src: Source,
                            replies: nat -> Reply, max: nat, range: Range)
  {
    && Requested(asked, replies, max) && d == After(s, src, handled, range.window)
    && match r
       case Ok => Complete(s, src, replies, |asked|, range) && handled == Fetched(replies, |asked|, range)
       case Err(e) =>
         Hopeless(s, src, replies, max, range) && PagesError(s, e, |asked|, handled, src, replies, max, range)
  }

  /** After `n` pages that each led to another. */
  ghost predicate Midway(s: Snapshot, d: Snapshot, n: nat, asked: seq<string>, handled: seq<Item>, src: Source,
                         replies: nat -> Reply, range: Range)
  {
    && asked == Requests(replies, n) && Leads(replies, n)
    && handled == Fetched(replies, n, range)
    && d == After(s, src, handled, range.window) && AllOk(s, src, handled, range.window)
  }

  lemma OneMoreRequest(asked: seq<string>, replies: nat -> Reply, n: nat, max: nat)
    requires asked == Requests(replies, n) && Leads(replies, n) && n < max
    ensures Requested(asked + [Cursor(replies, n)], replies, max) && |asked + [Cursor(replies, n)]| == n + 1
  {
    assert asked + [Cursor(replies, n)] == Requests(replies, n + 1);
  }

  lemma StopsHere(s: Snapshot, d: Snapshot, e: Snapshot, n: nat, asked: seq<string>, handled: seq<Item>, all: seq<Item>,
                  src: Source, replies: nat -> Reply, max: nat, range: Range)
    requires Midway(s, d, n, asked, handled, src, replies, range) && n < max
    requires e == After(s, src, all, range.window) && PageStops(s, src, replies(n), handled, all, range)
    ensures var error := if replies(n).Refused? then replies(n).error else Other;
      PagesRead(s, e, Err(error), asked + [Cursor(replies, n)], all, src, replies, max, range)
  {
    StoppingIsFailing(s, src, replies(n), handled, all, range);
    FailingIsHopeless(s, src, replies, n, max, range);
    OneMoreRequest(asked, replies, n, max);
  }

  /** Page `n` was read: the last one, one that leads into a circle, or one of many. */
  lemma GoesOn(s: Snapshot, d: Snapshot, e: Snapshot, n: nat, asked: seq<string>, handled: seq<Item>, all: seq<Item>,
               src: Source, replies: nat -> Reply, max: nat, range: Range)
    requires Midway(s, d, n, asked, handled, src, replies, range) && n < max && Readable(replies(n))
    requires all == handled + Wanted(replies(n).messages.value, range)
    requires e == After(s, src, all, range.window) && AllOk(s, src, all, range.window)
    ensures var r, more := replies(n), asked + [Cursor(replies, n)];
      if r.next == "" then PagesRead(s, e, Ok, more, all, src, replies, max, range)
      else if r.next in Cursors(replies, n) then PagesRead(s, e, Err(Other), more, all, src, replies, max, range)
      else
        && Midway(s, e, n + 1, more, all, src, replies, range)
        && Cursors(replies, n + 1) == Cursors(replies, n) + {r.next} && Cursor(replies, n + 1) == r.next
  {
    var more := asked + [Cursor(replies, n)];
    OneMoreRequest(asked, replies, n, max);
    assert all == Fetched(replies, n + 1, range);
    if replies(n).next != "" {
      Circles(s, e, n, more, all, src, replies, max, range);
    }
  }

  lemma Circles(s: Snapshot, e: Snapshot, n: nat, more: seq<string>, all: seq<Item>, src: Source,
                replies: nat -> Reply, max: nat, range: Range)
    requires Leads(replies, n) && Readable(replies(n)) && replies(n).next != "" && n < max
    requires all == Fetched(replies, n + 1, range) && Requested(more, replies, max) && |more| == n + 1
    requires e == After(s, src, all, range.window) && AllOk(s, src, all, range.window)
    ensures if replies(n).next in Cursors(replies, n) then
        PagesRead(s, e, Err(Other), more, all, src, replies, max, range)
      else
        && Midway(s, e, n + 1, more, all, src, replies, range)
        && Cursors(replies, n + 1) == Cursors(replies, n) + {replies(n).next}
        && Cursor(replies, n + 1) == replies(n).next
  {
    LeadsOn(replies, n);
    if replies(n).next in Cursors(replies, n) {
      CircleIsHopeless(s, src, replies, n, max, range);
    }
  }

  /** After Slack's own error, everything before it has been processed. */
  lemma RefusedIsExact(s: Snapshot, error: Error, n: nat, handled: seq<Item>, src: Source, replies: nat -> Reply,
                       max: nat, range: Range)
    requires PagesError(s, error, n, handled, src, replies, max, range) && error != Other
    ensures n > 0 && Leads(replies, n - 1) && replies(n - 1) == Refused(error)
    ensures handled == Fetched(replies, n - 1, range) && AllOk(s, src, handled, range.window)
  {
  }

  // --------------------------------------------------------------- the whole channel

  /** What was done about history, or one thread: the items processed, whether the
      thread turned out to be gone, and how many pages were requested. */
  datatype Visit = Visit(src: Source, handled: seq<Item>, gone: bool, asked: nat)

  ghost function AfterVisit(s: Snapshot, v: Visit, window: int): Snapshot {
    var t := After(s, v.src, v.handled, window);
    if v.gone && v.src.thread.Some? then ForgetThread(t, v.src.id, v.src.thread.value) else t
  }

  ghost function AfterVisits(s: Snapshot, visits: seq<Visit>, window: int): Snapshot {
    if visits == [] then s else AfterVisit(AfterVisits(s, visits[..|visits| - 1], window), visits[|visits| - 1], window)
  }

  /** The pages a visit has read. */
  function PagesOf(v: Visit): nat { if v.gone && v.asked > 0 then v.asked - 1 else v.asked }

  /** Read to its end, or a thread of which Slack says in the end that it does not exist. */
  ghost predicate Served(s: Snapshot, v: Visit, replies: nat -> Reply, range: Range) {
    && v.handled == Fetched(replies, PagesOf(v), range) && AllOk(s, v.src, v.handled, range.window)
    && if v.gone then
         && v.src.thread.Some? && v.asked > 0
         && Leads(replies, v.asked - 1) && replies(v.asked - 1) == Refused(ThreadNotFound)
       else Complete(s, v.src, replies, v.asked, range)
  }

  /** Not read to its end within the page limit, because of the error. */
  ghost predicate Broke(s: Snapshot, v: Visit, error: Error, replies: nat -> Reply, max: nat, range: Range) {
    && !v.gone && Hopeless(s, v.src, replies, max, range)
    && PagesError(s, error, v.asked, v.handled, v.src, replies, max, range)
    && (error == ThreadNotFound ==> v.src.thread.None?)
  }

  function Tracked(s: Snapshot, id: string): set<string> {
    if id in s.channels then s.channels[id].threads.Keys else {}
  }

  predicate IsGone(r: Result, src: Source) { r == Err(ThreadNotFound) && src.thread.Some? }

  function VisitOf(r: Result, asked: seq<string>, handled: seq<Item>, src: Source): Visit {
    Visit(src, handled, IsGone(r, src), |asked|)
  }

  lemma ReadIsServed(s: Snapshot, d: Snapshot, asked: seq<string>, handled: seq<Item>, src: Source,
                     replies: nat -> Reply, max: nat, range: Range)
    requires PagesRead(s, d, Ok, asked, handled, src, replies, max, range)
    ensures Served(s, Visit(src, handled, false, |asked|), replies, range)
  {
  }

  lemma GoneIsServed(s: Snapshot, d: Snapshot, asked: seq<string>, handled: seq<Item>, src: Source,
                     replies: nat -> Reply, max: nat, range: Range)
    requires PagesRead(s, d, Err(ThreadNotFound), asked, handled, src, replies, max, range) && src.thread.Some?
    ensures Served(s, Visit(src, handled, true, |asked|), replies, range)
  {
    RefusedIsExact(s, ThreadNotFound, |asked|, handled, src, replies, max, range);
  }

  lemma ErrorIsBroke(s: Snapshot, d: Snapshot, error: Error, asked: seq<string>, handled: seq<Item>, src: Source,
                     replies: nat -> Reply, max: nat, range: Range)
    requires PagesRead(s, d, Err(error), asked, handled, src, replies, max, range) && !IsGone(Err(error), src)
    ensures Broke(s, Visit(src, handled, false, |asked|), error, replies, max, range)
  {
  }

  /** Reading the pages of a source is a visit to it, and a missing thread does not count
      as an error. */
  lemma ReadingIsVisiting(s: Snapshot, d: Snapshot, r: Result, asked: seq<string>, handled: seq<Item>, src: Source,
                          replies: nat -> Reply, max: nat, range: Range)
    requires PagesRead(s, d, r, asked, handled, src, replies, max, range)
    ensures var v := VisitOf(r, asked, handled, src);
      && v.asked <= max
      && (r.Ok? || IsGone(r, src) ==> Served(s, v, replies, range))
      && (r.Err? && !IsGone(r, src) ==> Broke(s, v, r.error, replies, max, range))
      && AfterVisit(s, v, range.window)
         == if IsGone(r, src) then ForgetThread(d, src.id, src.thread.value) else d
  {
    if r.Ok? {
      ReadIsServed(s, d, asked, handled, src, replies, max, range);
    } else if IsGone(r, src) {
      GoneIsServed(s, d, asked, handled, src, replies, max, range);
    } else {
      ErrorIsBroke(s, d, r.error, asked, handled, src, replies, max, range);
    }
  }

  /** The visits are to history and to exactly these threads. */
  predicate Covers(visits: seq<Visit>, threads: set<string>) {
    (set v | v in visits :: v.src.thread) == {None} + set t | t in threads :: Some(t)
  }

  /** Each of the first `n` visits was served, on the store the visits before it left. */
  ghost predicate AllServed(s: Snapshot, visits: seq<Visit>, n: nat, replies: Option<string> -> nat -> Reply,
                            range: Range)
  {
    n <= |visits| && forall i :: 0 <= i < n ==>
      Served(AfterVisits(s, visits[..i], range.window), visits[i], replies(visits[i].src.thread), range)
  }

  predicate HistoryFirst(visits: seq<Visit>, id: string) {
    forall i :: 0 <= i < |visits| ==> visits[i].src.id == id && (visits[i].src.thread.None? <==> i == 0)
  }

  /** Visits to one channel, history first, turn `s` into `d`. */
  ghost predicate Visited(s: Snapshot, d: Snapshot, id: string, visits: seq<Visit>, window: int) {
    visits != [] && d == AfterVisits(s, visits, window) && HistoryFirst(visits, id)
  }

  /** The last visit ended with the error. */
  ghost predicate Unfinished(s: Snapshot, visits: seq<Visit>, error: Error, maxPages: nat,
                             replies: Option<string> -> nat -> Reply, range: Range)
  {
    visits != [] &&
      var last, before := visits[|visits| - 1], AfterVisits(s, visits[..|visits| - 1], range.window);
      Broke(before, last, error, replies(last.src.thread), maxPages, range)
  }

  /** Nothing was visited twice, and no thread but these. */
  predicate Within(visits: seq<Visit>, threads: set<string>) {
    && (forall i, j :: 0 <= i < j < |visits| ==> visits[i].src.thread != visits[j].src.thread)
    && forall i :: 0 <= i < |visits| ==> visits[i].src.thread.None? || visits[i].src.thread.value in threads
  }

  lemma OneMoreWithin(visits: seq<Visit>, covered: set<string>, v: Visit, t: string)
    requires Within(visits, covered) && v.src.thread == Some(t) && t !in covered
    ensures Within(visits + [v], covered + {t})
  {
  }

  /** The page limit, for each visit. */
  predicate Limited(visits: seq<Visit>, maxPages: nat) {
    forall i :: 0 <= i < |visits| ==> visits[i].asked <= maxPages
  }

  lemma FirstVisit(s: Snapshot, d: Snapshot, v: Visit, replies: Option<string> -> nat -> Reply, range: Range)
    requires d == AfterVisit(s, v, range.window) && v.src.thread.None?
    ensures Visited(s, d, v.src.id, [v], range.window) && [v][..1] == [v] && AfterVisits(s, [v][..0], range.window) == s
    ensures AllServed(s, [v], 0, replies, range)
    ensures Served(s, v, replies(None), range) ==> AllServed(s, [v], 1, replies, range)
    ensures Covers([v], {})
  {
  }

  lemma NextVisit(s: Snapshot, b: Snapshot, d: Snapshot, id: string, visits: seq<Visit>, v: Visit,
                  replies: Option<string> -> nat -> Reply, range: Range)
    requires Visited(s, b, id, visits, range.window) && d == AfterVisit(b, v, range.window)
    requires v.src.id == id && v.src.thread.Some?
    requires AllServed(s, visits, |visits|, replies, range)
    ensures (visits + [v])[..1] == visits[..1] && (visits + [v])[..|visits|] == visits
    ensures Visited(s, d, id, visits + [v], range.window)
    ensures AllServed(s, visits + [v], |visits|, replies, range)
    ensures Served(b, v, replies(v.src.thread), range) ==>
      AllServed(s, visits + [v], |visits| + 1, replies, range)
  {
    var all := visits + [v];
    assert all[..|visits|] == visits;
    assert forall i :: 0 <= i < |visits| ==> all[..i] == visits[..i];
  }

  lemma CoversMore(visits: seq<Visit>, threads: set<string>, v: Visit, t: string)
    requires Covers(visits, threads) && v.src.thread == Some(t)
    ensures Covers(visits + [v], threads + {t})
  {
  }

  /** After `first`, exactly the threads `threads` were read, or some of them up to an
      error. */
  ghost predicate Reading(s: Snapshot, d: Snapshot, id: string, first: seq<Visit>, visits: seq<Visit>,
                          threads: set<string>, r: Result, maxPages: nat,
                          replies: Option<string> -> nat -> Reply, range: Range)
  {
    && Visited(s, d, id, visits, range.window) && visits[..1] == first
    && Limited(visits, maxPages) && Within(visits, threads)
    && AllServed(s, visits, if r.Ok? then |visits| else |visits| - 1, replies, range)
    && if r.Ok? then Covers(visits, threads) else Unfinished(s, visits, r.error, maxPages, replies, range)
  }

  lemma TakeOff(all: set<string>, todo: set<string>, t: string)
    requires t in todo && todo <= all
    ensures t !in all - todo && all - (todo - {t}) == all - todo + {t}
  {
  }

  lemma EndsAmong(s: Snapshot, d: Snapshot, id: string, first: seq<Visit>, visits: seq<Visit>, some: set<string>,
                  all: set<string>, r: Result, maxPages: nat, replies: Option<string> -> nat -> Reply, range: Range)
    requires Reading(s, d, id, first, visits, some, r, maxPages, replies, range) && !r.Ok? && some <= all
    ensures Reading(s, d, id, first, visits, all, r, maxPages, replies, range)
  {
  }

  lemma VisitKeepsCheckpoints(s: Snapshot, v: Visit, window: int)
    ensures SameCheckpoints(s, AfterVisit(s, v, window))
    ensures AllOk(s, v.src, v.handled, window) ==> SameFlags(s, AfterVisit(s, v, window))
  {
    AfterKeepsCheckpoints(s, v.src, v.handled, window);
  }

  lemma CheckpointsChain(s: Snapshot, r: Snapshot, t: Snapshot)
    requires SameCheckpoints(s, r) && SameCheckpoints(r, t)
    ensures SameCheckpoints(s, t)
  {
  }

  lemma {:induction false} VisitsKeepCheckpoints(s: Snapshot, visits: seq<Visit>, window: int)
    ensures SameCheckpoints(s, AfterVisits(s, visits, window))
  {
    if visits != [] {
      var init := visits[..|visits| - 1];
      VisitsKeepCheckpoints(s, init, window);
      VisitKeepsCheckpoints(AfterVisits(s, init, window), visits[|visits| - 1], window);
      CheckpointsChain(s, AfterVisits(s, init, window), AfterVisits(s, visits, window));
    }
  }

  /** A pass that was served completely blames nobody. */
  lemma {:induction false} ServedKeepsFlags(s: Snapshot, visits: seq<Visit>, n: nat,
                                            replies: Option<string> -> nat -> Reply, range: Range)
    requires AllServed(s, visits, n, replies, range)
    ensures SameFlags(s, AfterVisits(s, visits[..n], range.window))
  {
    if n > 0 {
      ServedKeepsFlags(s, visits, n - 1, replies, range);
      OneMoreKeepsFlags(s, visits, n - 1, range);
    }
  }

  lemma OneMoreKeepsFlags(s: Snapshot, visits: seq<Visit>, n: nat, range: Range)
    requires n < |visits| && SameFlags(s, AfterVisits(s, visits[..n], range.window))
    requires AllOk(AfterVisits(s, visits[..n], range.window), visits[n].src, visits[n].handled, range.window)
    ensures SameFlags(s, AfterVisits(s, visits[..n + 1], range.window))
  {
    var r := AfterVisits(s, visits[..n], range.window);
    VisitKeepsCheckpoints(r, visits[n], range.window);
    assert visits[..n + 1][..n] == visits[..n];
    FlagsChain(s, r, AfterVisits(s, visits[..n + 1], range.window));
  }

  /** From `a` to `b`, exactly the channels `ids` were recovered through `through`. */
  ghost predicate Recovered(a: Snapshot, b: Snapshot, ids: set<string>, through: int) {
    && a.channels.Keys == b.channels.Keys
    && forall id :: id in a.channels ==>
         && b.channels[id].covered
            == (if id in ids then Max(a.channels[id].covered, through) else a.channels[id].covered)
         && b.channels[id].recovering == (id !in ids && a.channels[id].recovering)
  }

  /** What a pass on `id` was: complete, or abandoned at the last source it visited. */
  ghost predicate Attempted(s: Snapshot, id: string, visits: seq<Visit>, r: Result, maxPages: nat,
                            replies: Option<string> -> nat -> Reply, range: Range)
  {
    && visits != [] && HistoryFirst(visits, id) && Limited(visits, maxPages)
    && Within(visits, Tracked(AfterVisits(s, visits[..1], range.window), id))
    && AllServed(s, visits, if r.Ok? then |visits| else |visits| - 1, replies, range)
    && if r.Ok? then Covers(visits, Tracked(AfterVisits(s, visits[..1], range.window), id))
       else Unfinished(s, visits, r.error, maxPages, replies, range)
  }

  datatype Attempt = Attempt(id: string, visits: seq<Visit>, r: Result)

  ghost function AfterAttempt(s: Snapshot, a: Attempt, through: int, window: int): Snapshot {
    var t := AfterVisits(WithFailed(s, a.id, false), a.visits, window);
    if a.r.Ok? then FinishRecovery(t, a.id, through) else t
  }

  ghost function AfterAttempts(s: Snapshot, tried: seq<Attempt>, through: int, window: int): Snapshot {
    if tried == [] then s
    else AfterAttempt(AfterAttempts(s, tried[..|tried| - 1], through, window), tried[|tried| - 1], through, window)
  }

  function TriedIds(tried: seq<Attempt>): set<string> { set a | a in tried :: a.id }

  function FinishedIds(tried: seq<Attempt>): set<string> { set a | a in tried && a.r.Ok? :: a.id }

  function RecoveringIds(s: Snapshot): set<string> { set id | id in s.channels && s.channels[id].recovering }

  predicate EndsRound(r: Result) { r == Err(Authentication) || r == Err(RateLimited) }

  /** The attempts turn `s` into `d`; exactly the finished channels have moved. */
  ghost predicate Round(s: Snapshot, d: Snapshot, tried: seq<Attempt>, through: int, window: int) {
    d == AfterAttempts(s, tried, through, window) && Recovered(s, d, FinishedIds(tried), through)
  }

  predicate GoesOnAfter(tried: seq<Attempt>) { forall i :: 0 <= i < |tried| ==> !EndsRound(tried[i].r) }

  /** The round tried all it should, in some order, or ended with the first failure to
      authenticate, which it reports, or with the first rate limit, which it does not. */
  ghost predicate Stops(tried: seq<Attempt>, r: Result, all: set<string>) {
    && TriedIds(tried) <= all
    && (tried != [] ==> GoesOnAfter(tried[..|tried| - 1]))
    && (GoesOnAfter(tried) ==> TriedIds(tried) == all && r == Ok)
    && (!GoesOnAfter(tried) ==> r == if tried[|tried| - 1].r == Err(Authentication) then Err(Authentication) else Ok)
  }

  /** A listed channel not tried yet is as it was. */
  lemma StillWaiting(s: Snapshot, b: Snapshot, tried: seq<Attempt>, id: string, through: int)
    requires Recovered(s, b, FinishedIds(tried), through) && id !in TriedIds(tried) && id in RecoveringIds(s)
    ensures id in b.channels && b.channels[id].recovering && b.channels[id].covered == s.channels[id].covered
  {
    NotFinished(tried, id);
  }

  /** Of the channels `all`, `todo` remain; the members among the others were tried. */
  ghost predicate Passing(all: set<string>, todo: set<string>, tried: seq<Attempt>, members: set<string>) {
    todo <= all && TriedIds(tried) == members * (all - todo)
  }

  lemma PassOn(all: set<string>, todo: set<string>, tried: seq<Attempt>, members: set<string>, id: string)
    requires Passing(all, todo, tried, members) && id in todo
    ensures id in all && id !in TriedIds(tried) && TriedIds(tried) <= members * all
    ensures id !in members ==> Passing(all, todo - {id}, tried, members)
    ensures id in members ==> TriedIds(tried) + {id} <= members * all && forall more ::
      TriedIds(more) == TriedIds(tried) + {id} ==> Passing(all, todo - {id}, more, members)
  {
    assert all - (todo - {id}) == all - todo + {id};
  }

  lemma OneMoreId(tried: seq<Attempt>, a: Attempt)
    ensures (tried + [a])[..|tried|] == tried && (tried + [a])[|tried|] == a
    ensures TriedIds(tried + [a]) == TriedIds(tried) + {a.id}
    ensures FinishedIds(tried + [a]) == if a.r.Ok? then FinishedIds(tried) + {a.id} else FinishedIds(tried)
  {
    var all := tried + [a];
    assert all[|tried|] == a;
    assert forall x :: x in all <==> x in tried || x == a;
  }

  lemma NotFinished(tried: seq<Attempt>, id: string)
    requires id !in TriedIds(tried)
    ensures id !in FinishedIds(tried)
  {
  }

  lemma OneMoreGoesOn(tried: seq<Attempt>, a: Attempt)
    requires GoesOnAfter(tried)
    ensures GoesOnAfter(tried + [a]) <==> !EndsRound(a.r)
  {
    assert (tried + [a])[|tried|] == a;
  }

  lemma OneMoreAttempt(s: Snapshot, b: Snapshot, c: Snapshot, tried: seq<Attempt>, a: Attempt, through: int,
                       window: int)
    requires Round(s, b, tried, through, window) && GoesOnAfter(tried) && a.id !in TriedIds(tried)
    requires c == AfterAttempt(b, a, through, window) && Recovered(b, c, if a.r.Ok? then {a.id} else {}, through)
    ensures Round(s, c, tried + [a], through, window)
    ensures TriedIds(tried + [a]) == TriedIds(tried) + {a.id}
    ensures (tried + [a])[..|tried|] == tried && (GoesOnAfter(tried + [a]) <==> !EndsRound(a.r))
  {
    OneMoreId(tried, a);
    OneMoreGoesOn(tried, a);
    NotFinished(tried, a.id);
    OneMoreRecovered(s, b, c, FinishedIds(tried), a.id, a.r.Ok?, through);
  }

  lemma OneMoreRecovered(a: Snapshot, b: Snapshot, c: Snapshot, ids: set<string>, id: string, ok: bool, through: int)
    requires Recovered(a, b, ids, through) && Recovered(b, c, if ok then {id} else {}, through) && id !in ids
    ensures Recovered(a, c, if ok then ids + {id} else ids, through)
  {
  }

  lemma FinishTakesEffect(a: Snapshot, d: Snapshot, id: string, through: int)
    requires id in a.channels && SameFlags(WithFailed(a, id, false), d)
    ensures Recovered(a, FinishRecovery(d, id, through), {id}, through)
  {
    assert !Blamed(WithFailed(a, id, false), id);
    assert !Blamed(d, id);
  }

  lemma RetryMovesNothing(a: Snapshot, d: Snapshot, id: string, through: int)
    requires SameCheckpoints(WithFailed(a, id, false), d)
    ensures Recovered(a, d, {}, through)
  {
  }

  /** A complete pass moves its channel and nothing else; an abandoned one nothing. */
  lemma AttemptRecovers(a: Snapshot, id: string, visits: seq<Visit>, r: Result, maxPages: nat,
                        replies: Option<string> -> nat -> Reply, range: Range)
    requires id in a.channels
    requires Attempted(WithFailed(a, id, false), id, visits, r, maxPages, replies, range)
    ensures var b := AfterAttempt(a, Attempt(id, visits, r), range.through, range.window);
      Recovered(a, b, if r.Ok? then {id} else {}, range.through)
  {
    var s := WithFailed(a, id, false);
    if r.Ok? {
      assert visits[..|visits|] == visits;
      ServedKeepsFlags(s, visits, |visits|, replies, range);
      FinishTakesEffect(a, AfterVisits(s, visits, range.window), id, range.through);
    } else {
      VisitsKeepCheckpoints(s, visits, range.window);
      RetryMovesNothing(a, AfterVisits(s, visits, range.window), id, range.through);
    }
  }

  /** Attempt `i` was a pass on its channel: it asked Slack for the channel's range, as it
      was when the round began, on the store the attempts before it left. */
  ghost predicate TriedAt(s: Snapshot, tried: seq<Attempt>, i: nat, maxPages: nat,
                          replies: string -> Option<string> -> nat -> Reply, through: int, window: int)
    requires i < |tried|
  {
    var x := tried[i];
    x.id in s.channels &&
      Attempted(WithFailed(AfterAttempts(s, tried[..i], through, window), x.id, false), x.id, x.visits, x.r, maxPages,
        replies(x.id), Range(RecoverFrom(s.channels[x.id].covered, through, window), through, window))
  }

  /** No channel was tried twice, and each attempt was such a pass. */
  ghost predicate AllTried(s: Snapshot, tried: seq<Attempt>, maxPages: nat,
                           replies: string -> Option<string> -> nat -> Reply, through: int, window: int)
  {
    && (forall i, j :: 0 <= i < j < |tried| ==> tried[i].id != tried[j].id)
    && forall i :: 0 <= i < |tried| ==> TriedAt(s, tried, i, maxPages, replies, through, window)
  }

  lemma OneMoreTried(s: Snapshot, b: Snapshot, tried: seq<Attempt>, a: Attempt, maxPages: nat,
                     replies: string -> Option<string> -> nat -> Reply, through: int, window: int)
    requires AllTried(s, tried, maxPages, replies, through, window)
    requires b == AfterAttempts(s, tried, through, window) && a.id !in TriedIds(tried) && a.id in s.channels
    requires Attempted(WithFailed(b, a.id, false), a.id, a.visits, a.r, maxPages, replies(a.id),
                       Range(RecoverFrom(s.channels[a.id].covered, through, window), through, window))
    ensures AllTried(s, tried + [a], maxPages, replies, through, window)
  {
    var all := tried + [a];
    assert all[..|tried|] == tried;
    forall i | 0 <= i < |all| ensures TriedAt(s, all, i, maxPages, replies, through, window) {
      if i < |tried| {
        assert TriedAt(s, tried, i, maxPages, replies, through, window);
        assert all[..i] == tried[..i];
      }
    }
    assert forall i :: 0 <= i < |tried| ==> tried[i].id in TriedIds(tried);
  }

  /** Slack refused request `k` of visit `j` of attempt `i` with the error `e`. */
  predicate RefusedAt(tried: seq<Attempt>, replies: string -> Option<string> -> nat -> Reply, e: Error,
                      i: nat, j: nat, k: nat)
  {
    && i < |tried| && j < |tried[i].visits| && k < tried[i].visits[j].asked
    && replies(tried[i].id)(tried[i].visits[j].src.thread)(k) == Refused(e)
  }

  ghost predicate RefusedIn(tried: seq<Attempt>, replies: string -> Option<string> -> nat -> Reply, e: Error) {
    exists i: nat, j: nat, k: nat :: RefusedAt(tried, replies, e, i, j, k)
  }

  /** A pass that succeeds has read history first, then exactly the threads that the
      channel tracked by then, each once: to the end, or until Slack said it was gone. */
  lemma SuccessMeans(s: Snapshot, id: string, visits: seq<Visit>, maxPages: nat,
                     replies: Option<string> -> nat -> Reply, range: Range)
    requires Attempted(s, id, visits, Ok, maxPages, replies, range)
    ensures visits != [] && visits[0].src == Source(id, None) && !visits[0].gone
    ensures var d := AfterVisits(s, visits[..1], range.window);
      forall t :: (id in d.channels && t in d.channels[id].threads) <==>
        exists i :: 0 < i < |visits| && visits[i].src == Source(id, Some(t))
    ensures forall i, j :: 0 <= i < j < |visits| ==> visits[i].src != visits[j].src
    ensures forall i :: 0 <= i < |visits| ==>
      var v := visits[i];
      && v.asked <= maxPages
      && if v.gone then v.asked > 0 && replies(v.src.thread)(v.asked - 1) == Refused(ThreadNotFound)
         else Complete(AfterVisits(s, visits[..i], range.window), v.src, replies(v.src.thread), v.asked, range)
  {
    EachIsServed(s, visits, replies, range);
    assert Served(AfterVisits(s, visits[..0], range.window), visits[0], replies(visits[0].src.thread), range);
    CoversEach(visits, Tracked(AfterVisits(s, visits[..1], range.window), id), id);
  }

  lemma EachIsServed(s: Snapshot, visits: seq<Visit>, replies: Option<string> -> nat -> Reply, range: Range)
    requires AllServed(s, visits, |visits|, replies, range)
    ensures forall i :: 0 <= i < |visits| ==>
      var v := visits[i];
      if v.gone then v.asked > 0 && replies(v.src.thread)(v.asked - 1) == Refused(ThreadNotFound)
      else Complete(AfterVisits(s, visits[..i], range.window), v.src, replies(v.src.thread), v.asked, range)
  {
  }

  lemma CoversEach(visits: seq<Visit>, threads: set<string>, id: string)
    requires Covers(visits, threads) && HistoryFirst(visits, id) && Within(visits, threads)
    ensures forall t :: t in threads <==> exists i :: 0 < i < |visits| && visits[i].src == Source(id, Some(t))
  {
    forall t | t in threads ensures exists i :: 0 < i < |visits| && visits[i].src == Source(id, Some(t)) {
      assert Some(t) in {None} + set u | u in threads :: Some(u);
      assert Some(t) in set v | v in visits :: v.src.thread;
      var v :| v in visits && v.src.thread == Some(t);
      var i :| 0 <= i < |visits| && visits[i] == v;
    }
  }

  /** One that fails has ended at a source that no number of requests within the limit
      reads to its end. */
  lemma FailureMeans(s: Snapshot, id: string, visits: seq<Visit>, error: Error, maxPages: nat,
                     replies: Option<string> -> nat -> Reply, range: Range)
    requires Attempted(s, id, visits, Err(error), maxPages, replies, range)
    ensures visits != [] && visits[0].src == Source(id, None) && !visits[|visits| - 1].gone
    ensures var n := |visits| - 1;
      forall k: nat :: k <= maxPages ==>
        !Complete(AfterVisits(s, visits[..n], range.window), visits[n].src, replies(visits[n].src.thread), k, range)
  {
  }

  lemma ServedAnswers(s: Snapshot, v: Visit, replies: nat -> Reply, range: Range, k: nat)
    requires Served(s, v, replies, range) && k < v.asked && replies(k).Refused?
    ensures replies(k).error == ThreadNotFound
  {
    assert forall i :: 0 <= i < v.asked - 1 ==> replies(i).Page?;
  }

  lemma BrokeAnswers(s: Snapshot, v: Visit, error: Error, replies: nat -> Reply, max: nat, range: Range, k: nat)
    requires Broke(s, v, error, replies, max, range) && k < v.asked && replies(k).Refused?
    ensures error == replies(k).error
  {
    assert forall i :: 0 <= i < v.asked - 1 ==> replies(i).Page?;
  }

  /** A refusal other than that of a thread ends the attempt with that very error. */
  lemma RefusalEndsAttempt(s: Snapshot, id: string, visits: seq<Visit>, r: Result, maxPages: nat,
                           replies: Option<string> -> nat -> Reply, range: Range, j: nat, k: nat)
    requires Attempted(s, id, visits, r, maxPages, replies, range)
    requires j < |visits| && k < visits[j].asked
    requires replies(visits[j].src.thread)(k).Refused? && replies(visits[j].src.thread)(k).error != ThreadNotFound
    ensures r == Err(replies(visits[j].src.thread)(k).error)
  {
    var v, before := visits[j], AfterVisits(s, visits[..j], range.window);
    if r.Ok? || j < |visits| - 1 {
      ServedAnswers(before, v, replies(v.src.thread), range, k);
    } else {
      BrokeAnswers(before, v, r.error, replies(v.src.thread), maxPages, range, k);
    }
  }

  /** ... and an error that is not a local one was Slack's answer to the last request. */
  lemma ErrorWasRefusal(s: Snapshot, id: string, visits: seq<Visit>, r: Result, maxPages: nat,
                        replies: Option<string> -> nat -> Reply, range: Range)
    requires Attempted(s, id, visits, r, maxPages, replies, range) && r.Err? && r.error != Other
    ensures var v := visits[|visits| - 1]; v.asked > 0 && replies(v.src.thread)(v.asked - 1) == Refused(r.error)
  {
  }

  /** What ends a round is a refusal, and only that: it reports a failure to authenticate
      exactly if Slack answered some request of the round so, and ends early without an
      error exactly if Slack answered some request with a rate limit. */
  lemma RoundReportsRefusals(s: Snapshot, tried: seq<Attempt>, r: Result, all: set<string>, maxPages: nat,
                             replies: string -> Option<string> -> nat -> Reply, through: int, window: int)
    requires AllTried(s, tried, maxPages, replies, through, window) && Stops(tried, r, all)
    ensures r == Err(Authentication) <==> RefusedIn(tried, replies, Authentication)
    ensures RefusedIn(tried, replies, RateLimited) <==> tried != [] && tried[|tried| - 1].r == Err(RateLimited)
    ensures r == Ok || r == Err(Authentication)
    ensures TriedIds(tried) == all || RefusedIn(tried, replies, Authentication)
      || RefusedIn(tried, replies, RateLimited)
  {
    forall e, i: nat, j: nat, k: nat | e != ThreadNotFound && RefusedAt(tried, replies, e, i, j, k)
      ensures tried[i].r == Err(e)
    {
      RefusalIsReported(s, tried, maxPages, replies, through, window, i, j, k);
    }
    if tried != [] {
      var n := |tried| - 1;
      assert forall i :: 0 <= i < n ==> tried[..n][i] == tried[i];
      if EndsRound(tried[n].r) {
        LastErrorWasRefusal(s, tried, maxPages, replies, through, window);
      }
    }
  }

  lemma RefusalIsReported(s: Snapshot, tried: seq<Attempt>, maxPages: nat,
                          replies: string -> Option<string> -> nat -> Reply, through: int, window: int,
                          i: nat, j: nat, k: nat)
    requires AllTried(s, tried, maxPages, replies, through, window)
    requires i < |tried| && j < |tried[i].visits| && k < tried[i].visits[j].asked
    requires var reply := replies(tried[i].id)(tried[i].visits[j].src.thread)(k);
      reply.Refused? && reply.error != ThreadNotFound
    ensures tried[i].r == Err(replies(tried[i].id)(tried[i].visits[j].src.thread)(k).error)
  {
    var x := tried[i];
    assert TriedAt(s, tried, i, maxPages, replies, through, window);
    RefusalEndsAttempt(WithFailed(AfterAttempts(s, tried[..i], through, window), x.id, false), x.id, x.visits, x.r,
      maxPages, replies(x.id), Range(RecoverFrom(s.channels[x.id].covered, through, window), through, window), j, k);
  }

  lemma LastErrorWasRefusal(s: Snapshot, tried: seq<Attempt>, maxPages: nat,
                            replies: string -> Option<string> -> nat -> Reply, through: int, window: int)
    requires AllTried(s, tried, maxPages, replies, through, window)
    requires tried != [] && tried[|tried| - 1].r.Err? && tried[|tried| - 1].r.error != Other
    ensures RefusedIn(tried, replies, tried[|tried| - 1].r.error)
  {
    var n, x := |tried| - 1, tried[|tried| - 1];
    assert TriedAt(s, tried, n, maxPages, replies, through, window);
    ErrorWasRefusal(WithFailed(AfterAttempts(s, tried[..n], through, window), x.id, false), x.id, x.visits, x.r,
      maxPages, replies(x.id), Range(RecoverFrom(s.channels[x.id].covered, through, window), through, window));
    assert RefusedAt(tried, replies, x.r.error, n, |x.visits| - 1, x.visits[|x.visits| - 1].asked - 1);
  }

  lemma WantedStep(items: seq<Item>, i: nat, before: seq<Item>, range: Range)
    requires i < |items|
    ensures var done := Through(before, items, i, range);
      Through(before, items, i + 1, range) == if InRange(items[i], range) then done + [items[i]] else done
  {
    assert items[..i + 1][..i] == items[..i];
  }

  class Session {
    const store: Store
    const maxPages: nat

    constructor (store: Store, maxPages: nat)
      ensures this.store == store && this.maxPages == maxPages
    {
      this.store, this.maxPages := store, maxPages;
    }

    method Process(src: Source, item: Item) returns (ok: bool)
      modifies store
      ensures (store.Data(), ok) == Processing(old(store.Data()), src, item, store.window)
    {
      ghost var s, fate := store.Data(), FateOf(store.Data(), src, item, store.window);
      if !Normal(item) { return true; }
      var m, parent := Msg(src.id, item.ts.value), Parent(item, src.thread);
      if parent.Some? {
        store.RememberThread(src.id, parent.value, item.at);
      }
      assert store.Data() == Noted(s, src, item, store.window);
      var known := store.IsSeen(m);
      assert known <==> fate.Known?;
      if known || !Prepared(src.id, item) { return true; }
      assert item.delivered <==> fate.Delivered?;
      if item.delivered {
        store.Processed(m, parent, item.done);
      } else {
        store.Failed(src.id);
      }
      return item.delivered;
    }

    method ProcessNext(src: Source, item: Item, ghost s: Snapshot, ghost sofar: seq<Item>) returns (ok: bool)
      requires store.Data() == After(s, src, sofar, store.window) && AllOk(s, src, sofar, store.window)
      modifies store
      ensures store.Data() == After(s, src, sofar + [item], store.window)
      ensures ok <==> AllOk(s, src, sofar + [item], store.window)
    {
      ok := Process(src, item);
      assert (sofar + [item])[..|sofar + [item]| - 1] == sofar;
    }

    method ReadItem(src: Source, items: seq<Item>, i: nat, range: Range, ghost s: Snapshot, ghost fetched: seq<Item>)
        returns (ok: bool)
      requires i < |items| && store.Data() == After(s, src, Through(fetched, items, i, range), store.window)
      requires AllOk(s, src, Through(fetched, items, i, range), store.window)
      modifies store
      ensures store.Data() == After(s, src, Through(fetched, items, i + 1, range), store.window)
      ensures ok <==> AllOk(s, src, Through(fetched, items, i + 1, range), store.window)
    {
      WantedStep(items, i, fetched, range);
      ok := true;
      if InRange(items[i], range) {
        ok := ProcessNext(src, items[i], s, Through(fetched, items, i, range));
      }
    }

    /** The inner loop; `n` items were looked at, `fetched` processed before them. */
    method ReadItems(src: Source, items: seq<Item>, range: Range, ghost s: Snapshot, ghost fetched: seq<Item>)
        returns (ok: bool, ghost n: nat)
      requires range.window == store.window
      requires store.Data() == After(s, src, fetched, store.window) && AllOk(s, src, fetched, store.window)
      modifies store
      ensures n <= |items| && store.Data() == After(s, src, Through(fetched, items, n, range), store.window)
      ensures forall i :: 0 <= i < n ==> items[i].wellFormed
      ensures ok ==> n == |items| && AllOk(s, src, Through(fetched, items, n, range), store.window)
      ensures !ok ==>
        if AllOk(s, src, Through(fetched, items, n, range), store.window) then n < |items| && !items[n].wellFormed
        else n > 0 && AllOk(s, src, Through(fetched, items, n - 1, range), store.window)
    {
      assert Through(fetched, items, 0, range) == fetched;
      for i := 0 to |items|
        invariant forall k :: 0 <= k < i ==> items[k].wellFormed
        invariant store.Data() == After(s, src, Through(fetched, items, i, range), store.window)
        invariant AllOk(s, src, Through(fetched, items, i, range), store.window)
      {
        if !items[i].wellFormed { return false, i; }
        ok := ReadItem(src, items, i, range, s, fetched);
        if !ok { return false, i + 1; }
      }
      return true, |items|;
    }

    /** The body of the page loop; `all` is everything processed by its end. */
    method ReadPage(src: Source, reply: Reply, range: Range, ghost s: Snapshot, ghost fetched: seq<Item>)
        returns (o: PageEnd, ghost all: seq<Item>)
      requires range.window == store.window
      requires store.Data() == After(s, src, fetched, store.window) && AllOk(s, src, fetched, store.window)
      modifies store
      ensures store.Data() == After(s, src, all, store.window)
      ensures !o.Stopped? ==>
        && Readable(reply) && o == (if reply.next == "" then Last else More(reply.next))
        && all == fetched + Wanted(reply.messages.value, range) && AllOk(s, src, all, store.window)
      ensures o.Stopped? ==>
        && PageStops(s, src, reply, fetched, all, range)
        && o.error == (if reply.Refused? then reply.error else Other)
    {
      all := fetched;
      if reply.Refused? { return Stopped(reply.error), all; }
      if reply.messages.None? || |reply.messages.value| > MAX_PAGE { return Stopped(Other), all; }
      var ok;
      ghost var n;
      ok, n := ReadItems(src, reply.messages.value, range, s, fetched);
      all := fetched + Wanted(reply.messages.value[..n], range);
      if !ok {
        assert StopsAfter(s, src, reply.messages.value, reply, fetched, n, range);
        return Stopped(Other), all;
      }
      assert reply.messages.value[..n] == reply.messages.value;
      assert |reply.next| > MAX_CURSOR || (reply.next == "" && reply.more) ==>
        StopsAfter(s, src, reply.messages.value, reply, fetched, n, range);
      if |reply.next| > MAX_CURSOR || (reply.next == "" && reply.more) { return Stopped(Other), all; }
      return if reply.next == "" then Last else More(reply.next), all;
    }

    /** Page after page, until a page has no successor. */
    method RecoverPages(src: Source, range: Range, replies: nat -> Reply)
        returns (r: Result, asked: seq<string>, ghost handled: seq<Item>)
      requires range.window == store.window
      modifies store
      ensures PagesRead(old(store.Data()), store.Data(), r, asked, handled, src, replies, maxPages, range)
    {
      ghost var s := store.Data();
      var cursor, cursors: set<string> := "", {};
      asked, handled := [], [];
      for page := 0 to maxPages
        invariant Midway(s, store.Data(), page, asked, handled, src, replies, range)
        invariant cursor == Cursor(replies, page) && cursors == Cursors(replies, page)
      {
        ghost var before, d := handled, store.Data();
        var o;
        o, handled := ReadPage(src, replies(page), range, s, handled);
        if o.Stopped? {
          StopsHere(s, d, store.Data(), page, asked, before, handled, src, replies, maxPages, range);
          return Err(o.error), asked + [cursor], handled;
        }
        GoesOn(s, d, store.Data(), page, asked, before, handled, src, replies, maxPages, range);
        asked := asked + [cursor];
        if o.Last? { return Ok, asked, handled; }
        if o.next in cursors { return Err(Other), asked, handled; }
        cursor, cursors := o.next, cursors + {o.next};
      }
      EndlessIsHopeless(s, src, replies, maxPages, range);
      return Err(Other), asked, handled;
    }

    /** History, or one thread, whose removal is not an error. */
    method RecoverSource(src: Source, range: Range, replies: nat -> Reply) returns (r: Result, ghost v: Visit)
      requires range.window == store.window
      modifies store
      ensures store.Data() == AfterVisit(old(store.Data()), v, store.window) && v.src == src
      ensures v.asked <= maxPages
      ensures r.Ok? ==> Served(old(store.Data()), v, replies, range)
      ensures !r.Ok? ==> Broke(old(store.Data()), v, r.error, replies, maxPages, range)
    {
      ghost var handled;
      var asked;
      r, asked, handled := RecoverPages(src, range, replies);
      ReadingIsVisiting(old(store.Data()), store.Data(), r, asked, handled, src, replies, maxPages, range);
      v := VisitOf(r, asked, handled, src);
      if r == Err(ThreadNotFound) && src.thread.Some? {
        store.ForgetThread(src.id, src.thread.value);
        r := Ok;
      }
    }

    /** History, then every thread the channel tracks by then; any other error ends the
        pass. */
    method RecoverChannel(id: string, range: Range, replies: Option<string> -> nat -> Reply)
        returns (r: Result, ghost visits: seq<Visit>)
      requires range.window == store.window
      modifies store
      ensures Visited(old(store.Data()), store.Data(), id, visits, store.window)
      ensures Attempted(old(store.Data()), id, visits, r, maxPages, replies, range)
    {
      ghost var s := store.Data();
      ghost var v;
      r, v := RecoverSource(Source(id, None), range, replies(None));
      visits := [v];
      FirstVisit(s, store.Data(), v, replies, range);
      if r.Ok? {
        r, visits := RecoverThreads(id, range, replies, s, visits);
      }
    }

    method RecoverThreads(id: string, range: Range, replies: Option<string> -> nat -> Reply,
                          ghost s: Snapshot, ghost first: seq<Visit>)
        returns (r: Result, ghost visits: seq<Visit>)
      requires range.window == store.window && |first| == 1
      requires Reading(s, store.Data(), id, first, first, {}, Ok, maxPages, replies, range)
      modifies store
      ensures Reading(s, store.Data(), id, first, visits, Tracked(old(store.Data()), id), r, maxPages, replies, range)
    {
      var todo := store.ThreadsOf(id);
      r, visits := Ok, first;
      ghost var threads := todo;
      assert threads - todo == {};
      while todo != {}
        invariant r.Ok? && todo <= threads
        invariant Reading(s, store.Data(), id, first, visits, threads - todo, r, maxPages, replies, range)
        decreases |todo|
      {
        var t :| t in todo;
        TakeOff(threads, todo, t);
        r, visits := RecoverThread(id, t, range, replies, s, first, visits, threads - todo);
        todo := todo - {t};
        if !r.Ok? {
          EndsAmong(s, store.Data(), id, first, visits, threads - todo, threads, r, maxPages, replies, range);
          return;
        }
      }
      assert threads - todo == threads;
    }

    method RecoverThread(id: string, t: string, range: Range, replies: Option<string> -> nat -> Reply,
                         ghost s: Snapshot, ghost first: seq<Visit>, ghost visits: seq<Visit>,
                         ghost covered: set<string>)
        returns (r: Result, ghost more: seq<Visit>)
      requires range.window == store.window && t !in covered
      requires Reading(s, store.Data(), id, first, visits, covered, Ok, maxPages, replies, range)
      modifies store
      ensures Reading(s, store.Data(), id, first, more, covered + {t}, r, maxPages, replies, range)
    {
      ghost var before := store.Data();
      ghost var v;
      r, v := RecoverSource(Source(id, Some(t)), range, replies(Some(t)));
      NextVisit(s, before, store.Data(), id, visits, v, replies, range);
      CoversMore(visits, covered, v, t);
      OneMoreWithin(visits, covered, v, t);
      more := visits + [v];
    }

    /** One channel of `recover`: only a pass served to its end moves the checkpoint,
        and then the channel is no longer recovering. */
    method RecoverOne(id: string, covered: int, through: int, replies: Option<string> -> nat -> Reply)
        returns (r: Result, ghost visits: seq<Visit>)
      requires id in store.channels && store.channels[id].recovering && store.channels[id].covered == covered
      modifies store
      ensures store.Data() == AfterAttempt(old(store.Data()), Attempt(id, visits, r), through, store.window)
      ensures Recovered(old(store.Data()), store.Data(), if r.Ok? then {id} else {}, through)
      ensures Attempted(WithFailed(old(store.Data()), id, false), id, visits, r, maxPages, replies,
                        Range(RecoverFrom(covered, through, store.window), through, store.window))
    {
      ghost var a := store.Data();
      var oldest := Max(Max(covered - OVERLAP, through - store.window), 0);
      var range := Range(oldest, through, store.window);
      store.RetryChannel(id);
      r, visits := RecoverChannel(id, range, replies);
      AttemptRecovers(a, id, visits, r, maxPages, replies, range);
      if r.Ok? {
        store.FinishRecovery(id, through);
      }
    }

    method TryOne(id: string, covered: int, through: int, replies: string -> Option<string> -> nat -> Reply,
                  ghost a: Snapshot, ghost tried: seq<Attempt>)
        returns (r: Result, ghost more: seq<Attempt>)
      requires Round(a, store.Data(), tried, through, store.window) && GoesOnAfter(tried)
      requires AllTried(a, tried, maxPages, replies, through, store.window)
      requires id in RecoveringIds(a) && a.channels[id].covered == covered && id !in TriedIds(tried)
      modifies store
      ensures Round(a, store.Data(), more, through, store.window) && TriedIds(more) == TriedIds(tried) + {id}
      ensures AllTried(a, more, maxPages, replies, through, store.window)
      ensures |more| == |tried| + 1 && more[..|tried|] == tried && more[|tried|].r == r
      ensures GoesOnAfter(more) <==> !EndsRound(r)
    {
      ghost var before := store.Data();
      StillWaiting(a, before, tried, id, through);
      ghost var visits;
      r, visits := RecoverOne(id, covered, through, replies(id));
      more := tried + [Attempt(id, visits, r)];
      OneMoreTried(a, before, tried, Attempt(id, visits, r), maxPages, replies, through, store.window);
      OneMoreAttempt(a, before, store.Data(), tried, Attempt(id, visits, r), through, store.window);
    }

    /** One round of `recover`, over the channels listed when it began: what each attempt
        asked Slack and did, and how the round ended. */
    method Recover(members: set<string>, through: int, replies: string -> Option<string> -> nat -> Reply)
        returns (r: Result, ghost tried: seq<Attempt>)
      modifies store
      ensures Round(old(store.Data()), store.Data(), tried, through, store.window)
      ensures AllTried(old(store.Data()), tried, maxPages, replies, through, store.window)
      ensures Stops(tried, r, members * RecoveringIds(old(store.Data())))
      ensures r == Err(Authentication) <==> RefusedIn(tried, replies, Authentication)
      ensures || (forall id :: id in TriedIds(tried) <==>
                    id in members && id in old(store.channels) && old(store.channels)[id].recovering)
              || RefusedIn(tried, replies, Authentication) || RefusedIn(tried, replies, RateLimited)
    {
      ghost var a := store.Data();
      r, tried := TryAll(members, through, replies);
      RoundReportsRefusals(a, tried, r, members * RecoveringIds(a), maxPages, replies, through, store.window);
    }

    method TryAll(members: set<string>, through: int, replies: string -> Option<string> -> nat -> Reply)
        returns (r: Result, ghost tried: seq<Attempt>)
      modifies store
      ensures Round(old(store.Data()), store.Data(), tried, through, store.window)
      ensures AllTried(old(store.Data()), tried, maxPages, replies, through, store.window)
      ensures Stops(tried, r, members * RecoveringIds(old(store.Data())))
    {
      ghost var a := store.Data();
      var listed := store.RecoveryChannels();
      ghost var all := RecoveringIds(a);
      assert listed.Keys == all;
      var todo := listed.Keys;
      tried := [];
      while todo != {}
        invariant Passing(all, todo, tried, members)
        invariant Round(a, store.Data(), tried, through, store.window) && GoesOnAfter(tried)
        invariant AllTried(a, tried, maxPages, replies, through, store.window)
        decreases |todo|
      {
        var id :| id in todo;
        PassOn(all, todo, tried, members, id);
        todo := todo - {id};
        if id in members {
          r, tried := TryOne(id, listed[id].covered, through, replies, a, tried);
          if r == Err(Authentication) { return; }
          if r == Err(RateLimited) { return Ok, tried; }
        }
      }
      r := Ok;
    }
  }
}
