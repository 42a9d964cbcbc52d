/** What `process` does with a message, in terms of the message: which ones reach the
    worker, which are dropped, and what is left of them in the store. */
module Screening {
  import opened Harvest
  import opened Snapshots
  import opened Progress
  import opened Tracking
  import R = RecoveryPass

  /** A visible message of a kind that is harvested, with a timestamp. */
  predicate Harvested(item: R.Item) {
    && (item.kind.None? || item.kind.value == "message") && !item.hidden && item.parses
    && (item.subtype.None? || item.subtype.value == "bot_message" || item.subtype.value == "me_message"
        || item.subtype.value == "file_share" || item.subtype.value == "thread_broadcast")
    && item.ts.Some? && |item.ts.value| <= 32 && MessageTimestamp(item.ts.value).Some?
  }

  /** Its text, channel and sender are within the limits of the queue. */
  predicate Fits(id: string, item: R.Item) {
    item.text.Some? && item.text.value <= 65536 && 1 <= |id| <= 256 && item.sender <= 256
  }

  /** The thread it belongs to or starts: the one it names, else the one being read, else
      its own if it has replies. */
  function ThreadOf(src: R.Source, item: R.Item): Option<string> {
    if item.thread.Some? then item.thread
    else if src.thread.Some? then src.thread
    else if item.replies > 0 then item.ts
    else None
  }

  /** The store once that thread has been noted. */
  ghost function NotedIn(s: Snapshot, src: R.Source, item: R.Item, window: int): Snapshot {
    if ThreadOf(src, item).Some? then RememberThread(s, src.id, ThreadOf(src, item).value, item.at, window) else s
  }

  /** Hidden messages, other kinds, other subtypes, and what has no valid timestamp or does
      not parse: `process` returns Ok and does nothing. */
  lemma OthersAreDropped(s: Snapshot, src: R.Source, item: R.Item, window: int)
    requires !Harvested(item)
    ensures R.Processing(s, src, item, window) == (s, true) && R.FateOf(s, src, item, window) == R.Discarded
  {
  }

  lemma HarvestedIsNoted(s: Snapshot, src: R.Source, item: R.Item, window: int)
    requires Harvested(item)
    ensures R.Normal(item) && R.Noted(s, src, item, window) == NotedIn(s, src, item, window)
  {
  }

  lemma NotingForgets(s: Snapshot, src: R.Source, item: R.Item, window: int)
    ensures SeenMsgs(NotedIn(s, src, item, window).seen) <= SeenMsgs(s.seen)
  {
    var kept := Retained(s.seen, item.at - window - OVERLAP);
    assert forall e :: e in LastN(kept, MAX_SEEN) ==> e in kept;
  }

  /** A harvested message that fits and is not in the duplicate log reaches the worker. */
  lemma HarvestedIsSubmitted(s: Snapshot, src: R.Source, item: R.Item, window: int)
    requires Harvested(item) && Fits(src.id, item) && Msg(src.id, item.ts.value) !in SeenMsgs(s.seen)
    ensures R.FateOf(s, src, item, window) == if item.delivered then R.Delivered else R.Lost
  {
    HarvestedIsNoted(s, src, item, window);
    NotingForgets(s, src, item, window);
  }

  /** If the worker confirms it, it is recorded with its thread ... */
  lemma ConfirmedIsRecorded(s: Snapshot, src: R.Source, item: R.Item, window: int)
    requires Harvested(item) && Fits(src.id, item) && Msg(src.id, item.ts.value) !in SeenMsgs(s.seen)
    requires item.delivered
    ensures var noted, m := NotedIn(s, src, item, window), Msg(src.id, item.ts.value);
      R.Processing(s, src, item, window) == (Processed(noted, m, ThreadOf(src, item), item.done, window), true)
  {
    HarvestedIsSubmitted(s, src, item, window);
    HarvestedIsNoted(s, src, item, window);
    assert R.Parent(item, src.thread) == ThreadOf(src, item);
  }

  /** ... and in the log afterwards. */
  lemma ConfirmedIsLogged(s: Snapshot, src: R.Source, item: R.Item, window: int)
    requires Harvested(item) && Fits(src.id, item) && Msg(src.id, item.ts.value) !in SeenMsgs(s.seen)
    requires item.delivered && window >= 1
    ensures Msg(src.id, item.ts.value) in SeenMsgs(R.Processing(s, src, item, window).0.seen)
  {
    ConfirmedIsRecorded(s, src, item, window);
    ProcessedIsSeen(NotedIn(s, src, item, window), Msg(src.id, item.ts.value), ThreadOf(src, item), item.done, window);
  }

  /** If not, the call fails, the channel is blamed, and the log does not have it. */
  lemma UnconfirmedIsBlamed(s: Snapshot, src: R.Source, item: R.Item, window: int)
    requires Harvested(item) && Fits(src.id, item) && Msg(src.id, item.ts.value) !in SeenMsgs(s.seen)
    requires !item.delivered
    ensures var r, noted := R.Processing(s, src, item, window).0, NotedIn(s, src, item, window);
      && !R.Processing(s, src, item, window).1 && Msg(src.id, item.ts.value) !in SeenMsgs(r.seen)
      && SameContent(noted, r) && SameCheckpoints(noted, r)
      && forall id :: id in r.channels ==> r.channels[id].failed == (id == src.id || noted.channels[id].failed)
  {
    HarvestedIsSubmitted(s, src, item, window);
    HarvestedIsNoted(s, src, item, window);
    NotingForgets(s, src, item, window);
    FlaggingIsExact(NotedIn(s, src, item, window), src.id, true);
  }

  /** One that the log has, or that does not fit, does not: only its thread is noted. */
  lemma KnownIsSkipped(s: Snapshot, src: R.Source, item: R.Item, window: int)
    requires Harvested(item)
    requires Msg(src.id, item.ts.value) in SeenMsgs(NotedIn(s, src, item, window).seen) || !Fits(src.id, item)
    ensures R.Processing(s, src, item, window) == (NotedIn(s, src, item, window), true)
    ensures var known := Msg(src.id, item.ts.value) in SeenMsgs(NotedIn(s, src, item, window).seen);
      R.FateOf(s, src, item, window) == if known then R.Known else R.Discarded
  {
    HarvestedIsNoted(s, src, item, window);
  }

  /** A filter discards exactly what is not harvested, and what does not fit and is not
      known either. */
  lemma DiscardedByItsFields(s: Snapshot, src: R.Source, item: R.Item, window: int)
    ensures R.FateOf(s, src, item, window) == R.Discarded <==>
      || !Harvested(item)
      || (!Fits(src.id, item) && Msg(src.id, item.ts.value) !in SeenMsgs(NotedIn(s, src, item, window).seen))
  {
    if Harvested(item) {
      HarvestedIsNoted(s, src, item, window);
    }
  }

  /** Its thread is tracked from then on. */
  lemma ThreadIsNoted(s: Snapshot, src: R.Source, item: R.Item, window: int)
    requires Harvested(item) && ThreadOf(src, item).Some? && ValidTs(ThreadOf(src, item).value)
    requires src.id in s.channels
    ensures var others, it :=
        Others(s.channels, src.id, ThreadOf(src, item).value), Thread(item.at, src.id, ThreadOf(src, item).value);
      PrunedTo(Threads(R.Noted(s, src, item, window).channels), others + {it}, item.at, window)
  {
    HarvestedIsNoted(s, src, item, window);
    RememberingTracks(s, src.id, ThreadOf(src, item).value, item.at, window);
  }
}
