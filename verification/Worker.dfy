/** The serial message worker of src/slackbot.rs: `handle_msg` and `handle_messages`,
    and what a `true` receipt means for the session protocol. Which URLs the filter
    lets through and which inserts succeed is decided outside, per attempt. */
module Worker {
  import opened Harvest
  import S = Snapshots
  import P = Protocol

  /** A queued message: the URLs extracted from it, when it expires, whether somebody
      waits for a receipt. */
  datatype Queued = Queued(urls: seq<string>, expires: int, wants: bool, dryRun: bool)

  /** What the filter and the database say about the URL at each position. */
  datatype Verdicts = Verdicts(passes: nat -> bool, stored: nat -> bool)

  /** The rows that the insert attempts leave: positions that pass and are stored. */
  function Rows(urls: seq<string>, v: Verdicts): seq<string> {
    if urls == [] then []
    else
      var i := |urls| - 1;
      Rows(urls[..i], v) + if v.passes(i) && v.stored(i) then [urls[i]] else []
  }

  /** No URL that passes is refused by the database. */
  predicate NoneRefused(urls: seq<string>, v: Verdicts) {
    forall i :: 0 <= i < |urls| && v.passes(i) ==> v.stored(i)
  }

  /** The positions before `n` that pass and are stored. */
  ghost function Chosen(n: nat, v: Verdicts): set<nat> { set i | 0 <= i < n && v.passes(i) && v.stored(i) }

  lemma ChosenStep(n: nat, v: Verdicts)
    ensures |Chosen(n + 1, v)| == |Chosen(n, v)| + if v.passes(n) && v.stored(n) then 1 else 0
  {
    assert Chosen(n + 1, v) == Chosen(n, v) + if v.passes(n) && v.stored(n) then {n} else {};
  }

  /** One row for each of these positions ... */
  lemma {:induction false} RowsAreCounted(urls: seq<string>, v: Verdicts)
    ensures |Rows(urls, v)| == |Chosen(|urls|, v)|
  {
    if urls == [] {
      assert Chosen(0, v) == {};
    } else {
      RowsAreCounted(urls[..|urls| - 1], v);
      ChosenStep(|urls| - 1, v);
    }
  }

  /** ... in their order. */
  lemma {:induction false} RowsAreInOrder(urls: seq<string>, v: Verdicts, i: nat)
    requires i < |urls| && v.passes(i) && v.stored(i)
    ensures |Chosen(i, v)| < |Rows(urls, v)| && Rows(urls, v)[|Chosen(i, v)|] == urls[i]
  {
    var init := urls[..|urls| - 1];
    if i == |urls| - 1 {
      RowsAreCounted(init, v);
    } else {
      RowsAreInOrder(init, v, i);
    }
  }

  /** So the rows are these URLs and no others. */
  lemma {:induction false} RowsHold(urls: seq<string>, v: Verdicts, u: string)
    ensures u in Rows(urls, v) <==> exists i :: 0 <= i < |urls| && urls[i] == u && v.passes(i) && v.stored(i)
  {
    if urls != [] {
      var n := |urls| - 1;
      var init := urls[..n];
      RowsHold(init, v, u);
      assert forall i :: 0 <= i < n ==> init[i] == urls[i];
    }
  }

  /** A failed insert does not end the loop: the rows are those of all attempts. */
  method HandleMsg(m: Queued, v: Verdicts) returns (ok: bool, rows: seq<string>)
    ensures rows == if m.dryRun then [] else Rows(m.urls, v)
    ensures ok <==> m.dryRun || NoneRefused(m.urls, v)
  {
    var failed := false;
    rows := [];
    for i := 0 to |m.urls|
      invariant rows == if m.dryRun then [] else Rows(m.urls[..i], v)
      invariant failed <==> !m.dryRun && !NoneRefused(m.urls[..i], v)
    {
      assert m.urls[..i + 1][..i] == m.urls[..i];
      assert NoneRefused(m.urls[..i + 1], v) <==> NoneRefused(m.urls[..i], v) && (v.passes(i) ==> v.stored(i));
      if !v.passes(i) { continue; }
      if m.dryRun { continue; }
      if v.stored(i) {
        rows := rows + [m.urls[i]];
      } else {
        failed := true;
      }
    }
    assert m.urls[..|m.urls|] == m.urls;
    ok := !failed;
  }

  // ------------------------------------------------------------------------ the loop

  /** One turn of the loop, with what happened just before it: messages the channel
      accepted if it was open, the drain signal, all senders dropped; the time, and
      the verdicts for the message handled in it. */
  datatype Turn = Turn(arrivals: seq<Queued>, drain: bool, gone: bool, now: int, verdicts: Verdicts)

  /** How one message left the queue. */
  datatype Outcome = Outcome(turn: nat, expired: bool, ok: bool, receipt: Option<bool>, rows: seq<string>)

  /** What must be true of the way a message was dealt with. */
  ghost predicate Honest(m: Queued, o: Outcome, t: Turn) {
    && o.receipt == (if m.wants then Some(o.ok) else None)
    && (o.expired <==> m.expires <= t.now)
    && (o.expired ==> !o.ok && o.rows == [])
    && (!o.expired ==>
          && o.rows == (if m.dryRun then [] else Rows(m.urls, t.verdicts))
          && (o.ok <==> m.dryRun || NoneRefused(m.urls, t.verdicts)))
  }

  function Offered(turns: seq<Turn>): seq<Queued> {
    if turns == [] then [] else Offered(turns[..|turns| - 1]) + turns[|turns| - 1].arrivals
  }

  /** The outcomes belong to the first messages accepted, in order, one a turn. */
  ghost predicate InOrder(accepted: seq<Queued>, log: seq<Outcome>, turns: seq<Turn>) {
    && |log| <= |accepted|
    && (forall i :: 0 <= i < |log| ==> log[i].turn < |turns| && Honest(accepted[i], log[i], turns[log[i].turn]))
    && (forall i, j :: 0 <= i < j < |log| ==> log[i].turn < log[j].turn)
  }

  predicate Before(log: seq<Outcome>, used: nat) { log != [] ==> log[|log| - 1].turn < used }

  /** The channel accepted everything offered up to the drain signal, nothing after. */
  ghost predicate Accepted(accepted: seq<Queued>, turns: seq<Turn>, used: nat, closed: Option<nat>) {
    && used <= |turns|
    && (closed.None? ==> accepted == Offered(turns[..used]) && forall k :: 0 <= k < used ==> !turns[k].drain)
    && (closed.Some? ==>
          && closed.value < used && turns[closed.value].drain && (forall k :: 0 <= k < closed.value ==> !turns[k].drain)
          && accepted == Offered(turns[..closed.value + 1]))
  }

  /** Between two turns: the first |log| messages have left the queue. */
  ghost predicate Serving(turns: seq<Turn>, used: nat, accepted: seq<Queued>, log: seq<Outcome>, queue: seq<Queued>,
                          closed: Option<nat>) {
    Accepted(accepted, turns, used, closed) && InOrder(accepted, log, turns) && queue == accepted[|log|..]
  }

  lemma ArrivalsAccepted(accepted: seq<Queued>, turns: seq<Turn>, used: nat)
    requires used < |turns| && Accepted(accepted, turns, used, None)
    ensures Accepted(accepted + turns[used].arrivals, turns, used + 1, if turns[used].drain then Some(used) else None)
  {
    assert turns[..used + 1][..used] == turns[..used];
  }

  lemma Arrives(turns: seq<Turn>, used: nat, accepted: seq<Queued>, log: seq<Outcome>, queue: seq<Queued>)
    requires used < |turns| && Serving(turns, used, accepted, log, queue, None)
    ensures Serving(turns, used + 1, accepted + turns[used].arrivals, log, queue + turns[used].arrivals,
      if turns[used].drain then Some(used) else None)
  {
    ArrivalsAccepted(accepted, turns, used);
    MoreAccepted(accepted, turns[used].arrivals, log, turns);
  }

  lemma Leaves(turns: seq<Turn>, used: nat, accepted: seq<Queued>, log: seq<Outcome>, queue: seq<Queued>,
               closed: Option<nat>, o: Outcome)
    requires Serving(turns, used, accepted, log, queue, closed) && queue != []
    requires Before(log, o.turn) && o.turn < |turns| && Honest(queue[0], o, turns[o.turn])
    ensures Serving(turns, used, accepted, log + [o], queue[1..], closed)
  {
    LogGrows(accepted, log, o, turns);
  }

  lemma MoreAccepted(accepted: seq<Queued>, more: seq<Queued>, log: seq<Outcome>, turns: seq<Turn>)
    requires InOrder(accepted, log, turns)
    ensures InOrder(accepted + more, log, turns)
  {
  }

  lemma LogGrows(accepted: seq<Queued>, log: seq<Outcome>, o: Outcome, turns: seq<Turn>)
    requires InOrder(accepted, log, turns) && |log| < |accepted| && Before(log, o.turn) && o.turn < |turns|
    requires Honest(accepted[|log|], o, turns[o.turn])
    ensures InOrder(accepted, log + [o], turns)
  {
    var more := log + [o];
    forall i, j | 0 <= i < j < |more| ensures more[i].turn < more[j].turn {
      assert i < |log| - 1 ==> log[i].turn < log[|log| - 1].turn;
    }
  }

  /** The worker's loop over `turns`; it may still be waiting when they end, but after
      the drain signal it needs no more turns than there are messages, and one. */
  method HandleMessages(turns: seq<Turn>)
      returns (finished: bool, used: nat, accepted: seq<Queued>, log: seq<Outcome>, closed: Option<nat>)
    ensures used <= |turns| && (!finished ==> used == |turns|)
    ensures Accepted(accepted, turns, used, closed)
    ensures InOrder(accepted, log, turns)
    ensures finished ==> |log| == |accepted| && used > 0 && (closed.Some? || turns[used - 1].gone)
    ensures closed.Some? && |turns| > closed.value + 1 + |accepted| ==> finished
  {
    accepted, log, closed, used := [], [], None, 0;
    var queue: seq<Queued> := [];
    while used < |turns|
      invariant used <= |turns| && Serving(turns, used, accepted, log, queue, closed) && Before(log, used)
      invariant closed.Some? ==> used - closed.value - 1 <= |log|
    {
      if closed.None? {
        Arrives(turns, used, accepted, log, queue);
        accepted, queue := accepted + turns[used].arrivals, queue + turns[used].arrivals;
        if turns[used].drain {
          closed, used := Some(used), used + 1;
          continue;
        }
      }
      used := used + 1;
      if queue != [] {
        log := TakeOne(turns, used, accepted, log, queue, closed);
        queue := queue[1..];
      } else if closed.Some? || turns[used - 1].gone {
        return true, used, accepted, log, closed;
      }
    }
    finished := false;
  }

  method TakeOne(turns: seq<Turn>, used: nat, ghost accepted: seq<Queued>, before: seq<Outcome>, queue: seq<Queued>,
                 ghost closed: Option<nat>)
      returns (log: seq<Outcome>)
    requires 0 < used <= |turns| && Serving(turns, used, accepted, before, queue, closed)
    requires Before(before, used - 1) && queue != []
    ensures Serving(turns, used, accepted, log, queue[1..], closed) && |log| == |before| + 1 && Before(log, used)
  {
    var o := HandleOne(queue[0], turns[used - 1], used - 1);
    Leaves(turns, used, accepted, before, queue, closed, o);
    log := before + [o];
  }

  method HandleOne(m: Queued, t: Turn, turn: nat) returns (o: Outcome)
    ensures o.turn == turn && Honest(m, o, t)
  {
    if m.expires <= t.now {
      return Outcome(turn, true, false, if m.wants then Some(false) else None, []);
    }
    var ok, rows := HandleMsg(m, t.verdicts);
    return Outcome(turn, false, ok, if m.wants then Some(ok) else None, rows);
  }

  // ----------------------------------------------------------------- what receipts mean

  /** What an outcome says. A message gets `false` exactly if it expired, or outside dry
      run if an insert failed; nobody gets a receipt unasked. Its rows are one for each
      URL that passes and is stored, in order, whatever becomes of the others; none if it
      expired or in dry run. So a `true` receipt outside dry run means that exactly the
      URLs that pass are in the database. */
  lemma ReceiptIsHonest(m: Queued, o: Outcome, t: Turn)
    requires Honest(m, o, t)
    ensures o.receipt == (if m.wants then Some(o.ok) else None)
    ensures o.ok <==>
      && m.expires > t.now
      && (m.dryRun || forall i :: 0 <= i < |m.urls| && t.verdicts.passes(i) ==> t.verdicts.stored(i))
    ensures m.expires <= t.now || m.dryRun ==> o.rows == []
    ensures m.expires > t.now && !m.dryRun ==>
      && |o.rows| == |Chosen(|m.urls|, t.verdicts)|
      && forall i :: i in Chosen(|m.urls|, t.verdicts) ==>
           |Chosen(i, t.verdicts)| < |o.rows| && o.rows[|Chosen(i, t.verdicts)|] == m.urls[i]
    ensures o.ok && !m.dryRun ==>
      forall u :: u in o.rows <==> exists i :: 0 <= i < |m.urls| && m.urls[i] == u && t.verdicts.passes(i)
  {
    RowsAreCounted(m.urls, t.verdicts);
    forall i | i in Chosen(|m.urls|, t.verdicts)
      ensures var k, rows := |Chosen(i, t.verdicts)|, Rows(m.urls, t.verdicts); k < |rows| && rows[k] == m.urls[i]
    {
      RowsAreInOrder(m.urls, t.verdicts, i);
    }
    forall u ensures u in Rows(m.urls, t.verdicts) <==>
      exists i :: 0 <= i < |m.urls| && m.urls[i] == u && t.verdicts.passes(i) && t.verdicts.stored(i)
    {
      RowsHold(m.urls, t.verdicts, u);
    }
  }

  /** So the worker's outcome for the oldest unanswered job is a step the session
      protocol allows: its guard on `true` answers is what the worker guarantees. */
  lemma OutcomeIsAnAnswer(w: P.World, s: P.State, m: Queued, o: Outcome, t: Turn)
    requires Honest(m, o, t) && m.wants && m.dryRun == w.dryRun && s.work.head < |s.work.jobs|
    requires forall u :: u in w.urls(s.work.jobs[s.work.head].m) ==>
      exists i :: 0 <= i < |m.urls| && m.urls[i] == u && t.verdicts.passes(i)
    ensures P.TaskEnabled(w, s, P.Answer(o.receipt.value, S.Elements(o.rows)))
  {
    if o.ok && !w.dryRun {
      ReceiptIsHonest(m, o, t);
    }
  }
}
