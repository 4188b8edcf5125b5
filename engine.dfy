/**
 * DownloadEngine: the worker that reconciles a playlist with the store and
 * downloads its pending items one by one, with a duplicate guard, a retry
 * loop, a rate-limit pause and a stop flag the interface thread may set at
 * any time. Each method is proved to do what the function of the same step
 * in EngineSpec describes; the properties of the run are proved there.
 */
module Engine {
  import opened Wrappers
  import opened Store
  import opened EngineSpec
  import Text

  /**
   * The scan of the output directory for an earlier download of the item
   * (Engine.py:65-73): the first audio file whose name contains the video id.
   * With no video id, the membership test raises on the first file.
   */
  method FindExisting(vid: Option<string>, listing: seq<string>) returns (g: Guard)
    ensures g == DuplicateGuard(vid, listing)
  {
    for i := 0 to |listing|
      invariant vid.Some? || i == 0
      invariant vid.Some? ==> FirstMatch(vid.value, listing, i) == FirstMatch(vid.value, listing, 0)
    {
      if vid.None? {
        return IdMissing;
      }
      if Matches(vid.value, listing[i]) {
        return Existing(listing[i]);
      }
    }
    return NoFile;
  }

  class DownloadEngine {
    var stopFlag: bool
    var isPausedByLimit: bool
    /** One-second sleeps taken in the interruptible waits. */
    var ticks: nat
    /** Row ids handed to the downloader, one per download call. */
    ghost var calls: seq<nat>
    const db: DatabaseManager

    function State(): Flags
      reads this
    {
      Flags(stopFlag, isPausedByLimit, ticks)
    }

    ghost predicate Valid()
      reads this, db
    {
      db.Valid()
    }

    /** A fresh engine over a fresh store: not stopped, not paused. */
    constructor ()
      ensures Valid() && fresh(db)
      ensures db.Snapshot() == EmptyTables && db.settings == map[]
      ensures State() == Flags(false, false, 0) && calls == []
    {
      stopFlag := false;
      db := new DatabaseManager();
      isPausedByLimit := false;
      ticks := 0;
      calls := [];
    }

    /** request_stop: raise the stop flag and drop any rate-limit pause. */
    method RequestStop()
      modifies this`stopFlag, this`isPausedByLimit
      ensures State() == EngineSpec.RequestStop(old(State()))
    {
      stopFlag := true;
      isPausedByLimit := false;
    }

    /** The interface thread calls request_stop now if the world says it does. */
    method Poll(w: World, s: Slot)
      modifies this`stopFlag, this`isPausedByLimit
      ensures State() == Polled(w, s, old(State()))
    {
      if w.stopArrives(s) {
        RequestStop();
      }
    }

    /** A run of one-second sleeps, checking the stop flag before each. */
    method Sleep(w: World, wait: Wait, seconds: nat)
      modifies this`stopFlag, this`isPausedByLimit, this`ticks
      ensures State() == Countdown(w, wait, 0, seconds, old(State()))
    {
      for s := 0 to seconds
        invariant Countdown(w, wait, s, seconds, State()) == Countdown(w, wait, 0, seconds, old(State()))
      {
        Poll(w, Tick(wait, s));
        if stopFlag {
          return;
        }
        ticks := ticks + 1;
      }
    }

    /** _wait_cooldown: `minutes` minutes of one-second sleeps. */
    method WaitCooldown(w: World, k: nat, minutes: nat)
      modifies this`stopFlag, this`isPausedByLimit, this`ticks
      ensures State() == Countdown(w, Cooldown(k), 0, minutes * 60, old(State()))
    {
      var seconds := minutes * 60;
      Sleep(w, Cooldown(k), seconds);
    }

    /** The rate-limit pause before item k: 60 one-second sleeps, then the pause is over. */
    method PauseForRateLimit(w: World, k: nat)
      modifies this`stopFlag, this`isPausedByLimit, this`ticks
      ensures State() == PauseWait(w, k, old(State()))
    {
      Poll(w, PauseStart(k));
      ghost var g := State();
      while isPausedByLimit
        invariant State() == g || (State() == PauseWait(w, k, old(State())) && !isPausedByLimit)
        decreases if isPausedByLimit then 1 else 0
      {
        if stopFlag {
          break;
        }
        Sleep(w, Pause(k), PauseSeconds);
        isPausedByLimit := false;
      }
    }

    /**
     * One pass of the retry loop (Engine.py:116-138): the stop check, the
     * download call, and the OK and RATE_LIMIT branches. An ERROR or
     * CRITICAL outcome comes back as `settled == None` for the loop to retry
     * or give up.
     */
    method TryOnce(w: World, cfg: Config, k: nat, a: nat, dbId: nat, cell: Option<string>)
      returns (settled: Option<Verdict>, cell': Option<string>, msg: string)
      modifies this`stopFlag, this`isPausedByLimit, this`ticks, this`calls, db`videos
      ensures match AttemptOnce(w, cfg.format, k, a, cell, old(State()))
        case Settled(r) =>
          settled == Some(r.verdict) && State() == r.flags &&
          calls == old(calls) + Repeat(dbId, r.attempts - a) &&
          db.videos == ApplyAll(old(db.videos), OptionSeq(WriteOf(dbId, r.verdict)))
        case Again(c, h, m) =>
          settled == None && cell' == c && msg == m && State() == h &&
          calls == old(calls) + [dbId] && db.videos == old(db.videos)
    {
      cell', msg := cell, "";
      Poll(w, AttemptStart(k, a));
      if stopFlag {
        ApplyNone(db.videos);
        assert Repeat(dbId, 0) == [];
        return Some(Interrupted), cell', msg;
      }
      calls := calls + [dbId];
      assert Repeat(dbId, 1) == [dbId];
      var at := w.download(k, a);
      Poll(w, AttemptCall(k, a));
      if at.hook.Some? {
        cell' := at.hook.value;
      }
      var c := DownloadSafe(at.call);
      msg := c.msg;
      if c.kind == Ok {
        var saved := if cell'.Some? && cell'.value != "" then cell'.value else UnknownPath;
        if saved != UnknownPath {
          saved := Text.SplitExt(saved).0 + "." + cfg.format;
        }
        ApplyOne(db.videos, Write(dbId, Completed, "", saved));
        db.UpdateVideoStatus(dbId, Completed, "", saved);
        settled := Some(Downloaded(saved));
      } else if c.kind == RateLimit {
        isPausedByLimit := true;
        WaitCooldown(w, k, CooldownMinutes);
        ApplyNone(db.videos);
        settled := Some(Throttled);
      } else {
        settled := None;
      }
    }

    /** The retry loop is about to make attempt number `attempt` of the run `r` of Retry. */
    ghost predicate Retrying(w: World, cfg: Config, k: nat, dbId: nat, attempt: nat, cell: Option<string>,
                             r: RetryResult, calls0: seq<nat>, videos0: seq<Video>)
      reads this, db
    {
      attempt < MaxRetries && Retry(w, cfg.format, k, attempt, cell, State()) == r &&
      calls == calls0 + Repeat(dbId, attempt) && db.videos == videos0
    }

    /** The retry loop has ended as the run `r` of Retry says. */
    ghost predicate Retried(dbId: nat, verdict: Verdict, attempt: nat, r: RetryResult, calls0: seq<nat>, videos0: seq<Video>)
      reads this, db
    {
      verdict == r.verdict && attempt == r.attempts && State() == r.flags &&
      calls == calls0 + Repeat(dbId, attempt) && db.videos == ApplyAll(videos0, OptionSeq(WriteOf(dbId, verdict)))
    }

    /**
     * One pass of the retry loop (Engine.py:116-146), with the bookkeeping:
     * the attempt counter, and the ERROR row written after the third failure.
     */
    method RetryPass(w: World, cfg: Config, k: nat, dbId: nat, attempt: nat, cell: Option<string>,
                     ghost r: RetryResult, ghost calls0: seq<nat>, ghost videos0: seq<Video>)
      returns (done: bool, verdict: Verdict, attempt': nat, cell': Option<string>)
      requires Retrying(w, cfg, k, dbId, attempt, cell, r, calls0, videos0)
      modifies this`stopFlag, this`isPausedByLimit, this`ticks, this`calls, db`videos
      ensures done ==> Retried(dbId, verdict, attempt', r, calls0, videos0)
      ensures !done ==> attempt' == attempt + 1 && Retrying(w, cfg, k, dbId, attempt', cell', r, calls0, videos0)
    {
      var settled, msg;
      settled, cell', msg := TryOnce(w, cfg, k, attempt, dbId, cell);
      if settled.Some? {
        verdict := settled.value;
        attempt' := if verdict.Interrupted? then attempt else attempt + 1;
        return true, verdict, attempt', cell';
      }
      assert Repeat(dbId, attempt + 1) == Repeat(dbId, attempt) + [dbId];
      attempt' := attempt + 1;
      if attempt' == MaxRetries {
        ApplyOne(db.videos, Write(dbId, Error, msg, ""));
        db.UpdateVideoStatus(dbId, Error, msg, "");
        return true, GaveUp(msg), attempt', cell';
      }
      return false, GaveUp(""), attempt', cell';
    }

    /**
     * The retry loop of one item (Engine.py:111-146): up to three attempts;
     * OK records COMPLETED with the predicted path, RATE_LIMIT sets the
     * pause and cools down, a third ERROR or CRITICAL records ERROR.
     */
    method DownloadWithRetries(w: World, cfg: Config, k: nat, dbId: nat) returns (verdict: Verdict, attempt: nat)
      modifies this`stopFlag, this`isPausedByLimit, this`ticks, this`calls, db`videos
      ensures var r := Retry(w, cfg.format, k, 0, None, old(State()));
        verdict == r.verdict && attempt == r.attempts && State() == r.flags
      ensures calls == old(calls) + Repeat(dbId, attempt)
      ensures db.videos == ApplyAll(old(db.videos), OptionSeq(WriteOf(dbId, verdict)))
    {
      ghost var r := Retry(w, cfg.format, k, 0, None, State());
      var cell: Option<string> := None;
      verdict := GaveUp("");
      attempt := 0;
      var done := false;
      while !done
        invariant done ==> Retried(dbId, verdict, attempt, r, old(calls), old(db.videos))
        invariant !done ==> Retrying(w, cfg, k, dbId, attempt, cell, r, old(calls), old(db.videos))
        decreases if done then 0 else MaxRetries - attempt + 1
      {
        done, verdict, attempt, cell := RetryPass(w, cfg, k, dbId, attempt, cell, r, old(calls), old(db.videos));
      }
    }

    /**
     * One iteration of the item loop (Engine.py:57-148): the stop check, the
     * duplicate guard, the rate-limit pause and the retry loop.
     */
    method ProcessItem(w: World, cfg: Config, path: string, k: nat, it: PendingItem) returns (next: Next)
      modifies this`stopFlag, this`isPausedByLimit, this`ticks, this`calls, db`videos
      ensures var s := Step(w, cfg, path, k, it, old(State()));
        next == s.next && State() == s.flags && calls == old(calls) + Repeat(it.dbId, s.attempts) &&
        db.videos == ApplyAll(old(db.videos), OptionSeq(s.write))
    {
      Poll(w, ItemStart(k));
      if stopFlag {
        assert db.videos == ApplyAll(old(db.videos), []);
        return Halt;
      }
      var g := FindExisting(it.videoId, w.listdir(k));
      match g
      case IdMissing =>
        assert db.videos == ApplyAll(old(db.videos), []);
        return Fault;
      case Existing(name) =>
        db.UpdateVideoStatus(it.dbId, Completed, "", Text.Join(path, name));
        return Proceed;
      case NoFile =>
        PauseForRateLimit(w, k);
        var verdict, attempts := DownloadWithRetries(w, cfg, k, it.dbId);
        return Proceed;
    }

    /**
     * The extraction and reconciliation step of run (Engine.py:31-44): the
     * playlist row, then its entries; None when the step raises.
     */
    method Synchronize(url: string, w: World) returns (pid: Option<nat>)
      requires Valid()
      modifies db`playlists, db`nextPlaylistId, db`videos, db`nextVideoId
      ensures Valid()
      ensures var rc := Reconcile(old(db.Snapshot()), url, w.extract);
        db.Snapshot() == rc.tables && (pid.Some? <==> rc.Reconciled?) && (pid.Some? ==> pid.value == rc.pid)
    {
      if !w.extract.Extracted? {
        return None;
      }
      var info := w.extract.info;
      var id := db.GetOrCreatePlaylist(url, info.meta.title.GetOr(DefaultPlaylistTitle));
      var entries := EntriesOf(info);
      if entries.None? {
        return None;
      }
      var added := db.AddVideosToPlaylist(id, entries.value);
      return Some(id);
    }

    /** The engine and the store are where the walk over the first i pending items leaves them. */
    ghost predicate WalkedTo(w: World, cfg: Config, path: string, pending: seq<PendingItem>, i: nat,
                             f: Flags, calls0: seq<nat>, videos0: seq<Video>, next: Next)
      requires i <= |pending|
      reads this, db
    {
      var p := Walk(w, cfg, path, pending, f, i);
      next == p.next && State() == p.flags && calls == calls0 + p.calls && db.videos == ApplyAll(videos0, p.writes)
    }

    /**
     * One turn of the item loop of run (Engine.py:57-148): item i of the
     * pending list, taking the walk over the first i items to the walk over
     * the first i + 1.
     */
    method ProcessAt(w: World, cfg: Config, path: string, pending: seq<PendingItem>, i: nat,
                     ghost f: Flags, ghost calls0: seq<nat>, ghost videos0: seq<Video>) returns (next: Next)
      requires i < |pending|
      requires WalkedTo(w, cfg, path, pending, i, f, calls0, videos0, Proceed)
      modifies this`stopFlag, this`isPausedByLimit, this`ticks, this`calls, db`videos
      ensures WalkedTo(w, cfg, path, pending, i + 1, f, calls0, videos0, next)
    {
      ghost var prog := Walk(w, cfg, path, pending, f, i);
      ghost var s := Step(w, cfg, path, i, pending[i], State());
      WalkNext(w, cfg, path, pending, f, i);
      next := ProcessItem(w, cfg, path, i, pending[i]);
      ApplyAllSnoc(videos0, prog.writes, OptionSeq(s.write));
    }

    /** The item loop of run (Engine.py:57-148), over the pending items in order. */
    method ProcessPending(w: World, cfg: Config, path: string, pending: seq<PendingItem>) returns (next: Next)
      requires Valid()
      modifies this`stopFlag, this`isPausedByLimit, this`ticks, this`calls, db`videos
      ensures Valid()
      ensures var p := Walk(w, cfg, path, pending, old(State()), |pending|);
        next == p.next && State() == p.flags && calls == old(calls) + p.calls &&
        db.videos == ApplyAll(old(db.videos), p.writes)
    {
      ghost var f := State();
      next := Proceed;
      for i := 0 to |pending|
        invariant next == Proceed && WalkedTo(w, cfg, path, pending, i, f, old(calls), old(db.videos), next)
      {
        next := ProcessAt(w, cfg, path, pending, i, f, old(calls), old(db.videos));
        if next != Proceed {
          WalkHalted(w, cfg, path, pending, f, i + 1, |pending|);
          break;
        }
      }
      ApplyAllOk(old(db.videos), db.nextVideoId, Walk(w, cfg, path, pending, f, |pending|).writes);
    }

    /**
     * run (Engine.py:20-150): reset the stop flag, reconcile the playlist
     * with the store, and process its pending items in order until one
     * stops or raises.
     */
    method Run(url: string, path: string, cfg: Config, w: World) returns (end: RunEnd)
      requires Valid()
      modifies this`stopFlag, this`isPausedByLimit, this`ticks, this`calls
      modifies db`playlists, db`nextPlaylistId, db`videos, db`nextVideoId
      ensures Valid()
      ensures var r := RunSpec(old(db.Snapshot()), old(State()), url, path, cfg, w);
        db.Snapshot() == r.tables && State() == r.flags && calls == old(calls) + r.calls && end == r.end
    {
      stopFlag := false;
      Poll(w, Sync);
      var pid := Synchronize(url, w);
      if pid.None? {
        return AnalysisError;
      }
      var pending := db.GetPendingVideos(pid.value);
      if |pending| == 0 {
        return NothingPending;
      }
      var next := ProcessPending(w, cfg, path, pending);
      end := EndOf(next);
    }
  }
}
