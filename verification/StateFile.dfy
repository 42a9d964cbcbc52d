/** The state file of src/slackbot/user_session/state.rs and what `Store::open` demands
    of it. */
module StateFile {
  import opened Harvest
  import opened Snapshots

  const VERSION: nat := 1
  const MAX_STATE_BYTES: nat := 16 * 1024 * 1024
  const CLOCK_SLACK: int := 300
  const MAX_TIME: int := 0x8000_0000_0000_0000

  datatype File = File(version: nat, team: string, user: string, snap: Snapshot)

  /** Every check `open` makes on a file of `size` bytes at time `now`. */
  ghost predicate Accepts(f: File, size: nat, team: string, user: string, now: int) {
    && ValidId(team) && ValidId(user)
    && size <= MAX_STATE_BYTES
    && f.version == VERSION && f.team == team && f.user == user
    && |f.snap.channels| <= MAX_CHANNELS && |f.snap.seen| <= MAX_SEEN
    && (forall id :: id in f.snap.channels ==>
          && ValidId(id)
          && 0 <= f.snap.channels[id].covered <= now + CLOCK_SLACK
          && forall ts :: ts in f.snap.channels[id].threads ==> ValidTs(ts))
    && |Threads(f.snap.channels)| <= MAX_THREADS
    && (forall e :: e in f.snap.seen ==> ValidId(e.channel) && ValidTs(e.ts))
  }
}
