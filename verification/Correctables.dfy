/** Progressive quorum calls and their watchers (correctable.go). */
module Correctables {
  import opened Requests
  import opened Responses

  const LEVEL_NOT_SET: int := -1

  datatype Watcher = Watcher(level: int, ch: nat)

  /** How Watch was called: for which level, at which entry of the level history, and whether the call was complete. */
  datatype Registration = Registration(level: int, since: nat, late: bool)

  type Slots = seq<Option<Watcher>>

  /** The channels of the watchers with a level up to the given one. */
  ghost function Reached(ws: Slots, level: int): set<nat> {
    set i | 0 <= i < |ws| && ws[i].Some? && ws[i].value.level <= level :: ws[i].value.ch
  }

  ghost function Waiting(ws: Slots): set<nat> {
    set i | 0 <= i < |ws| && ws[i].Some? :: ws[i].value.ch
  }

  ghost predicate DistinctChannels(ws: Slots) {
    forall i, j :: 0 <= i < j < |ws| && ws[i].Some? && ws[j].Some? ==> ws[i].value.ch != ws[j].value.ch
  }

  ghost predicate Registered(ws: Slots, reg: map<nat, Registration>) {
    forall i :: 0 <= i < |ws| && ws[i].Some? ==> ws[i].value.ch in reg && reg[ws[i].value.ch].level == ws[i].value.level
  }

  /** The slots after the reached watchers have been set to nil. */
  ghost function Remaining(ws: Slots, level: int): Slots {
    seq(|ws|, i requires 0 <= i < |ws| => if ws[i].Some? && ws[i].value.level <= level then None else ws[i])
  }

  /** The level was reached at or after entry `since` of the history. */
  ghost predicate ReachedSince(levels: seq<int>, since: nat, level: int) {
    exists i :: since <= i < |levels| && level <= levels[i]
  }

  lemma ReachedLater(levels: seq<int>, next: int, since: nat, level: int)
    requires since <= |levels|
    ensures ReachedSince(levels + [next], since, level) <==> ReachedSince(levels, since, level) || level <= next
  {
    var longer := levels + [next];
    assert longer[|levels|] == next;
    if ReachedSince(levels, since, level) {
      var i :| since <= i < |levels| && level <= levels[i];
      assert longer[i] == levels[i];
    }
  }

  lemma ReachedSplit(ws: Slots, reg: map<nat, Registration>, level: int)
    requires DistinctChannels(ws) && Registered(ws, reg)
    ensures forall ch :: ch in Reached(ws, level) <==> ch in Waiting(ws) && reg[ch].level <= level
    ensures Waiting(Remaining(ws, level)) == Waiting(ws) - Reached(ws, level)
    ensures DistinctChannels(Remaining(ws, level)) && Registered(Remaining(ws, level), reg)
  {
    var rest := Remaining(ws, level);
    forall ch
      ensures ch in Reached(ws, level) <==> ch in Waiting(ws) && reg[ch].level <= level
      ensures ch in Waiting(rest) <==> ch in Waiting(ws) && ch !in Reached(ws, level)
    {
      if ch in Waiting(ws) {
        var i :| 0 <= i < |ws| && ws[i].Some? && ws[i].value.ch == ch;
        assert rest[i] == if ws[i].value.level <= level then None else ws[i];
      }
    }
  }

  // ---- which channels are closed ---------------------------------------------------------

  /** The level was reached since the channel was registered, or the call was completed since then. */
  ghost predicate Due(x: Registration, levels: seq<int>, done: bool) {
    ReachedSince(levels, x.since, x.level) || (done && !x.late)
  }

  /** Every channel is closed exactly when it is due. */
  ghost predicate ClosedWhenDue(reg: map<nat, Registration>, levels: seq<int>, done: bool, closed: set<nat>) {
    && closed <= reg.Keys
    && forall ch :: ch in reg ==> (ch in closed <==> Due(reg[ch], levels, done))
  }

  /** Until the call is complete, the waiting channels are those that are not closed. */
  ghost predicate Waited(reg: map<nat, Registration>, levels: seq<int>, done: bool, closed: set<nat>, ws: Slots, next: nat) {
    && (forall ch :: ch in reg ==> reg[ch].since < |levels| && ch < next)
    && DistinctChannels(ws) && Registered(ws, reg)
    && (!done ==> Waiting(ws) == reg.Keys - closed && forall ch :: ch in reg ==> !reg[ch].late)
  }

  /** A watcher whose level is reached already is closed at once. */
  lemma WatchReached(reg: map<nat, Registration>, levels: seq<int>, done: bool, closed: set<nat>, ws: Slots, ch: nat, level: int)
    requires ClosedWhenDue(reg, levels, done, closed) && Waited(reg, levels, done, closed, ws, ch)
    requires levels != [] && level <= levels[|levels| - 1]
    ensures var later := reg[ch := Registration(level, |levels| - 1, done)];
            ClosedWhenDue(later, levels, done, closed + {ch}) && Waited(later, levels, done, closed + {ch}, ws, ch + 1)
  {
  }

  lemma WaitingAppend(ws: Slots, w: Watcher)
    ensures Waiting(ws + [Some(w)]) == Waiting(ws) + {w.ch}
  {
    var longer := ws + [Some(w)];
    assert longer[|ws|] == Some(w);
    assert forall i :: 0 <= i < |ws| ==> longer[i] == ws[i];
  }

  lemma WatchWaits(reg: map<nat, Registration>, levels: seq<int>, done: bool, closed: set<nat>, ws: Slots, ch: nat, level: int)
    requires ClosedWhenDue(reg, levels, done, closed) && Waited(reg, levels, done, closed, ws, ch)
    requires levels != [] && level > levels[|levels| - 1]
    ensures var later := reg[ch := Registration(level, |levels| - 1, done)];
            && ClosedWhenDue(later, levels, done, closed)
            && Waited(later, levels, done, closed, ws + [Some(Watcher(level, ch))], ch + 1)
  {
    WaitingAppend(ws, Watcher(level, ch));
    var longer := ws + [Some(Watcher(level, ch))];
    assert forall i :: 0 <= i < |ws| ==> longer[i] == ws[i];
  }

  /** What becomes due when the history grows by a level. */
  lemma NowDue(reg: map<nat, Registration>, levels: seq<int>, level: int, done: bool)
    requires forall ch :: ch in reg ==> reg[ch].since < |levels| && !reg[ch].late
    ensures forall ch :: ch in reg ==>
              (Due(reg[ch], levels + [level], done) <==> Due(reg[ch], levels, false) || reg[ch].level <= level || done)
  {
    forall ch | ch in reg {
      ReachedLater(levels, level, reg[ch].since, reg[ch].level);
    }
  }

  lemma Completed(reg: map<nat, Registration>, levels: seq<int>, closed: set<nat>, ws: Slots, next: nat, level: int)
    requires ClosedWhenDue(reg, levels, false, closed) && Waited(reg, levels, false, closed, ws, next)
    ensures ClosedWhenDue(reg, levels + [level], true, closed + Waiting(ws))
    ensures Waited(reg, levels + [level], true, closed + Waiting(ws), ws, next)
  {
    NowDue(reg, levels, level, true);
  }

  lemma Advanced(reg: map<nat, Registration>, levels: seq<int>, closed: set<nat>, ws: Slots, next: nat, level: int)
    requires ClosedWhenDue(reg, levels, false, closed) && Waited(reg, levels, false, closed, ws, next)
    ensures ClosedWhenDue(reg, levels + [level], false, closed + Reached(ws, level))
    ensures Waited(reg, levels + [level], false, closed + Reached(ws, level), Remaining(ws, level), next)
  {
    NowDue(reg, levels, level, false);
    ReachedSplit(ws, reg, level);
  }

  class Correctable<T> {
    var reply: Option<T>
    var level: int
    var err: Option<seq<NodeError>>
    var done: bool
    var watchers: Slots
    var donech: bool                        // the Done channel is closed
    var closed: set<nat>                    // watcher channels that are closed
    var nextCh: nat
    ghost var reg: map<nat, Registration>   // every channel Watch ever returned
    ghost var levels: seq<int>              // every level so far

    ghost predicate Valid()
      reads this
    {
      && ClosedWhenDue(reg, levels, done, closed) && Waited(reg, levels, done, closed, watchers, nextCh)
      && levels != [] && levels[|levels| - 1] == level && donech == done
    }

    constructor ()
      ensures Valid() && !done && level == LEVEL_NOT_SET && reg == map[] && levels == [LEVEL_NOT_SET] && reply == None
    {
      reply, level, err, done := None, LEVEL_NOT_SET, None, false;
      watchers, donech, closed, nextCh := [], false, {}, 0;
      reg, levels := map[], [LEVEL_NOT_SET];
    }

    method Watch(level: int) returns (ch: nat)
      requires Valid()
      modifies this
      ensures Valid() && ch !in old(reg) && reg == old(reg)[ch := Registration(level, |levels| - 1, done)]
      ensures this.level == old(this.level) && done == old(done) && reply == old(reply) && err == old(err)
      ensures levels == old(levels) && closed == old(closed) + if level <= this.level then {ch} else {}
    {
      ch := nextCh;
      nextCh := nextCh + 1;
      if level <= this.level {
        WatchReached(reg, levels, done, closed, watchers, ch, level);
        closed := closed + {ch};
      } else {
        WatchWaits(reg, levels, done, closed, watchers, ch, level);
        watchers := watchers + [Some(Watcher(level, ch))];
      }
      reg := reg[ch := Registration(level, |levels| - 1, done)];
    }

    /** update: it panics on a completed call. No close hits a channel that is closed already. */
    method Update(reply: Option<T>, level: int, done: bool, err: Option<seq<NodeError>>) returns (panics: bool)
      requires Valid()
      modifies this
      ensures Valid() && panics == old(this.done)
      ensures panics ==> unchanged(this)
      ensures !panics ==> this.reply == reply && this.level == level && this.done == done && this.err == err
      ensures !panics ==> levels == old(levels) + [level] && reg == old(reg) && old(closed) <= closed
    {
      if this.done {
        return true;
      }
      this.reply, this.level, this.err, this.done := reply, level, err, done;
      if done {
        Completed(reg, levels, closed, watchers, nextCh, level);
        donech := true;
        CloseAll();
      } else {
        Advanced(reg, levels, closed, watchers, nextCh, level);
        CloseReached();
      }
      levels := levels + [level];
      return false;
    }

    method CloseAll()
      requires DistinctChannels(watchers) && Waiting(watchers) !! closed
      modifies this`closed
      ensures closed == old(closed) + Waiting(watchers)
    {
      for i := 0 to |watchers|
        invariant closed == old(closed) + Waiting(watchers[..i])
      {
        assert watchers[..i + 1] == watchers[..i] + [watchers[i]];
        if watchers[i].Some? {
          var ch := watchers[i].value.ch;
          assert ch in Waiting(watchers);
          assert ch !in closed;
          closed := closed + {ch};
        }
        assert Waiting(watchers[..i + 1]) == Waiting(watchers[..i]) + if watchers[i].Some? then {watchers[i].value.ch} else {} by {
          assert watchers[..i + 1][i] == watchers[i];
          assert forall k :: 0 <= k < i ==> watchers[..i + 1][k] == watchers[..i][k];
        }
      }
      assert watchers[..|watchers|] == watchers;
    }

    method CloseReached()
      requires DistinctChannels(watchers) && Waiting(watchers) !! closed
      modifies this`closed, this`watchers
      ensures closed == old(closed) + Reached(old(watchers), level)
      ensures watchers == Remaining(old(watchers), level)
    {
      ghost var ws := watchers;
      for i := 0 to |watchers|
        invariant |watchers| == |ws| && closed == old(closed) + Reached(ws[..i], level)
        invariant forall k :: i <= k < |ws| ==> watchers[k] == ws[k]
        invariant forall k :: 0 <= k < i ==> watchers[k] == Remaining(ws, level)[k]
      {
        assert Reached(ws[..i + 1], level) == Reached(ws[..i], level)
               + (if ws[i].Some? && ws[i].value.level <= level then {ws[i].value.ch} else {}) by {
          assert ws[..i + 1][i] == ws[i];
          assert forall k :: 0 <= k < i ==> ws[..i + 1][k] == ws[..i][k];
        }
        if watchers[i].Some? && watchers[i].value.level <= level {
          assert watchers[i].value.ch in Waiting(ws);
          assert watchers[i].value.ch !in closed;
          closed := closed + {watchers[i].value.ch};
          watchers := watchers[i := None];
        }
      }
      assert ws[..|ws|] == ws;
    }
  }

  // ---- the aggregation goroutine ---------------------------------------------------------

  /** Calls of Watch by other goroutines, between two updates. */
  method WatchAll<T>(c: Correctable<T>, levels: seq<int>)
    requires c.Valid()
    modifies c
    ensures c.Valid() && c.level == old(c.level) && c.done == old(c.done) && c.levels == old(c.levels)
    ensures c.reply == old(c.reply) && c.err == old(c.err)
    ensures forall ch :: ch in old(c.reg) ==> ch in c.reg && c.reg[ch] == old(c.reg)[ch]
  {
    for i := 0 to |levels|
      invariant c.Valid() && c.level == old(c.level) && c.done == old(c.done) && c.levels == old(c.levels)
      invariant c.reply == old(c.reply) && c.err == old(c.err)
      invariant forall ch :: ch in old(c.reg) ==> ch in c.reg && c.reg[ch] == old(c.reg)[ch]
    {
      var ch := c.Watch(levels[i]);
    }
  }

  /**
   * A channel that is obtained after completion, for a level above the final one, stays open: neither
   * later calls of Watch nor an attempt to update the call closes it.
   */
  method LateWatch<T>(c: Correctable<T>, level: int, others: seq<int>, again: int) returns (ch: nat)
    requires c.Valid() && c.done && level > c.level
    modifies c
    ensures c.Valid() && c.done && ch in c.reg && ch !in c.closed
  {
    ch := c.Watch(level);
    assert ch !in c.closed;
    WatchAll(c, others);
    var panics := c.Update(None, again, true, None);
    assert panics;
  }

  ghost function LastValue<T>(xs: seq<NodeResponse<T>>): Option<T> {
    if xs == [] then None else Some(xs[|xs| - 1].value)
  }

  /** The levels after n successful replies: none was skipped, and none decreases. */
  ghost function Ladder(n: nat): seq<int> {
    seq(n + 1, i => if i == 0 then LEVEL_NOT_SET else i)
  }

  ghost function LevelOf(n: nat): int {
    if n == 0 then LEVEL_NOT_SET else n
  }

  /** What others can see of a call at one moment. */
  datatype Snapshot<T> = Snapshot(level: int, done: bool, reply: Option<T>, reg: map<nat, Registration>, closed: set<nat>)

  ghost function Look<T>(c: Correctable<T>): Snapshot<T>
    reads c
  {
    Snapshot(c.level, c.done, c.reply, c.reg, c.closed)
  }

  /** The open channels are those for levels above the current one, and there is none when the call is complete. */
  ghost predicate ClosedUpTo(reg: map<nat, Registration>, closed: set<nat>, level: int, done: bool) {
    forall ch :: ch in reg ==> (ch in closed <==> reg[ch].level <= level || done)
  }

  ghost predicate Extends(reg: map<nat, Registration>, later: map<nat, Registration>) {
    forall ch :: ch in reg ==> ch in later && later[ch] == reg[ch]
  }

  lemma ReachedOnLadder(n: nat, since: nat, level: int)
    requires since < |Ladder(n)|
    ensures ReachedSince(Ladder(n), since, level) <==> level <= LevelOf(n)
  {
    assert Ladder(n)[n] == LevelOf(n);
  }

  /** On the ladder, what is due is exactly what the current level and completion say. */
  lemma DueOnLadder(reg: map<nat, Registration>, n: nat, done: bool, closed: set<nat>)
    requires ClosedWhenDue(reg, Ladder(n), done, closed)
    requires forall ch :: ch in reg ==> reg[ch].since < |Ladder(n)| && !reg[ch].late
    ensures ClosedUpTo(reg, closed, LevelOf(n), done)
  {
    forall ch | ch in reg {
      ReachedOnLadder(n, reg[ch].since, reg[ch].level);
    }
  }

  /** The call has seen n successful replies, the last one with the given value, and is not complete. */
  ghost predicate Climbing<T>(c: Correctable<T>, n: nat, last: Option<T>)
    reads c
  {
    c.Valid() && !c.done && c.levels == Ladder(n) && c.reply == last
  }

  /** The update for the n-th successful reply. */
  method Climb<T>(c: Correctable<T>, value: T, n: nat, done: bool) returns (panicked: bool)
    requires n > 0 && Climbing(c, n - 1, c.reply)
    modifies c
    ensures !panicked && c.Valid() && c.levels == Ladder(n) && c.reg == old(c.reg) && c.err == None
    ensures Look(c) == Snapshot(n, done, Some(value), c.reg, c.closed) && ClosedUpTo(c.reg, c.closed, n, done)
  {
    assert Ladder(n - 1) + [n as int] == Ladder(n);
    panicked := c.Update(Some(value), n, done, None);
    DueOnLadder(c.reg, n, done, c.closed);
  }

  // ---- one reply after the other ---------------------------------------------------------

  /** The newest value among the first n replies keeps its place in the whole. */
  lemma LastCounted<T>(xs: seq<NodeResponse<T>>, n: nat)
    requires n <= |xs| && Counted(xs[..n], false) != []
    ensures |Counted(xs[..n], false)| <= |Counted(xs, false)|
    ensures LastValue(Counted(xs[..n], false)) == Some(Counted(xs, false)[|Counted(xs[..n], false)| - 1].value)
  {
    CountedPrefix(xs, n, false);
  }

  /** The local variables of the goroutine after the first i replies. */
  ghost predicate Tallied<T>(xs: seq<NodeResponse<T>>, i: nat, count: nat, last: Option<T>, errs: seq<NodeError>) {
    && i <= |xs| && count == |Counted(xs[..i], false)|
    && last == LastValue(Counted(xs[..i], false)) && errs == Errors(xs[..i], false)
  }

  lemma TalliedMore<T>(xs: seq<NodeResponse<T>>, i: nat, count: nat, last: Option<T>, errs: seq<NodeError>)
    requires i < |xs| && Tallied(xs, i, count, last, errs)
    ensures if xs[i].err.NoError? then Tallied(xs, i + 1, count + 1, Some(xs[i].value), errs)
            else Tallied(xs, i + 1, count, last, errs + [NodeError(xs[i].nodeID, xs[i].err)])
  {
    assert xs[..i + 1][..i] == xs[..i];
  }

  /** After reply i: level, value and completion follow the successful replies so far, and so do the open channels. */
  ghost predicate Shown<T>(xs: seq<NodeResponse<T>>, i: nat, threshold: int, snap: Snapshot<T>)
    requires i < |xs|
  {
    var n := |Counted(xs[..i + 1], false)|;
    && snap.level == LevelOf(n) && snap.done == (n >= Need(threshold))
    && snap.reply == LastValue(Counted(xs[..i + 1], false))
    && ClosedUpTo(snap.reg, snap.closed, snap.level, snap.done)
  }

  /** One iteration for reply i, after calls of Watch by others. */
  method Handle<T>(c: Correctable<T>, xs: seq<NodeResponse<T>>, i: nat, threshold: int, watched: seq<int>,
                   count: nat, last: Option<T>, errs: seq<NodeError>)
    returns (panicked: bool, done: bool, count': nat, last': Option<T>, errs': seq<NodeError>)
    requires i < |xs| && Climbing(c, count, last) && Tallied(xs, i, count, last, errs) && count < Need(threshold)
    modifies c
    ensures !panicked && done == c.done == (count' == Need(threshold)) && Tallied(xs, i + 1, count', last', errs')
    ensures count' <= Need(threshold)
    ensures c.Valid() && c.levels == Ladder(count') && c.reply == last' && (done ==> c.err == None)
    ensures Shown(xs, i, threshold, Look(c)) && Extends(old(c.reg), c.reg)
  {
    WatchAll(c, watched);
    TalliedMore(xs, i, count, last, errs);
    if !xs[i].err.NoError? {
      DueOnLadder(c.reg, count, false, c.closed);
      return false, false, count, last, errs + [NodeError(xs[i].nodeID, xs[i].err)];
    }
    count', last', errs' := count + 1, Some(xs[i].value), errs;
    done := count' >= threshold;
    panicked := Climb(c, xs[i].value, count', done);
  }

  /** A snapshot after each reply, each with all the channels there were at the start. */
  ghost predicate ShownAll<T>(xs: seq<NodeResponse<T>>, threshold: int, seen: seq<Snapshot<T>>, reg: map<nat, Registration>) {
    && |seen| <= |xs|
    && forall i :: 0 <= i < |seen| ==> Shown(xs, i, threshold, seen[i]) && Extends(reg, seen[i].reg)
  }

  lemma ShownMore<T>(xs: seq<NodeResponse<T>>, threshold: int, seen: seq<Snapshot<T>>, reg: map<nat, Registration>, snap: Snapshot<T>)
    requires ShownAll(xs, threshold, seen, reg) && |seen| < |xs|
    requires Shown(xs, |seen|, threshold, snap) && Extends(reg, snap.reg)
    ensures ShownAll(xs, threshold, seen + [snap], reg)
  {
  }

  /** The verdict once i replies have been handled: success if the threshold is met, and failure at the end. */
  lemma VerdictAt<T>(xs: seq<NodeResponse<T>>, i: nat, threshold: int, count: nat, last: Option<T>, errs: seq<NodeError>)
    requires Tallied(xs, i, count, last, errs)
    ensures count == Need(threshold) ==> Verdict(xs, threshold, false) == None && |Counted(xs, false)| >= count
    ensures count == Need(threshold) ==> last == Some(Counted(xs, false)[count - 1].value)
    ensures i == |xs| && count < Need(threshold) ==> Verdict(xs, threshold, false) == Some(errs)
    ensures i == |xs| ==> count == |Counted(xs, false)| && last == LastValue(Counted(xs, false))
  {
    if i == |xs| {
      assert xs[..i] == xs;
    }
    if count == Need(threshold) {
      LastCounted(xs, i);
    }
  }

  /**
   * The goroutine started by Correctable(threshold), with any calls of Watch in between. Each of
   * its updates finds the call incomplete, so the panic of update is out of reach. The level goes up
   * by one with every successful reply, and after each reply exactly the channels for the levels
   * reached are closed. The call is completed without an error exactly if enough replies were
   * successful, and with all errors after the last reply otherwise.
   */
  method Aggregate<T>(c: Correctable<T>, xs: seq<NodeResponse<T>>, threshold: int, between: seq<seq<int>>)
    returns (panicked: bool, ghost seen: seq<Snapshot<T>>)
    requires Climbing(c, 0, None)
    modifies c
    ensures !panicked && c.Valid() && c.done && c.err == Verdict(xs, threshold, false)
    ensures ShownAll(xs, threshold, seen, old(c.reg))
    ensures c.err.None? ==> c.levels == Ladder(Need(threshold)) && |Counted(xs[..|seen|], false)| == Need(threshold)
    ensures c.err.None? ==> c.reply == Some(Counted(xs, false)[Need(threshold) - 1].value)
    ensures c.err.Some? ==> c.levels == Ladder(|Counted(xs, false)|) + [|Counted(xs, false)|] && |seen| == |xs|
    ensures c.err.Some? ==> c.reply == LastValue(Counted(xs, false))
  {
    var last: Option<T>, count: nat, errs := None, 0, [];
    seen := [];
    for i := 0 to |xs|
      invariant Climbing(c, count, last) && Tallied(xs, i, count, last, errs) && count < Need(threshold)
      invariant |seen| == i && ShownAll(xs, threshold, seen, old(c.reg)) && Extends(old(c.reg), c.reg)
    {
      var done;
      panicked, done, count, last, errs :=
        Handle(c, xs, i, threshold, if i < |between| then between[i] else [], count, last, errs);
      ShownMore(xs, threshold, seen, old(c.reg), Look(c));
      seen := seen + [Look(c)];
      if done {
        VerdictAt(xs, i + 1, threshold, count, last, errs);
        return;
      }
    }
    VerdictAt(xs, |xs|, threshold, count, last, errs);
    panicked := c.Update(last, count, true, Some(errs));
  }

  // ---- Threshold and Correctable ---------------------------------------------------------

  ghost predicate NoneSkipped<T>(xs: seq<NodeResponse<T>>) {
    forall i :: 0 <= i < |xs| ==> !xs[i].err.SkipNode?
  }

  /** Each reply is counted or contributes an error. */
  lemma {:induction false} CountedOrError<T>(xs: seq<NodeResponse<T>>, skips: bool)
    ensures |Errors(xs, skips)| + |Counted(xs, skips)| == |xs|
  {
    if xs != [] {
      CountedOrError(xs[..|xs| - 1], skips);
    }
  }

  /** Correctable counts fewer replies than Threshold, and the same exactly if no node was skipped. */
  lemma {:induction false} SkipsCount<T>(xs: seq<NodeResponse<T>>)
    ensures |Counted(xs, false)| <= |Counted(xs, true)|
    ensures NoneSkipped(xs) <==> |Counted(xs, false)| == |Counted(xs, true)|
    ensures NoneSkipped(xs) ==> Errors(xs, false) == Errors(xs, true)
  {
    if xs != [] {
      var n := |xs| - 1;
      SkipsCount(xs[..n]);
      assert NoneSkipped(xs) <==> NoneSkipped(xs[..n]) && !xs[n].err.SkipNode?;
    }
  }

  /** They list the same errors exactly if no node was skipped. */
  lemma SameErrorsIff<T>(xs: seq<NodeResponse<T>>)
    ensures Errors(xs, false) == Errors(xs, true) <==> NoneSkipped(xs)
  {
    SkipsCount(xs);
    CountedOrError(xs, false);
    CountedOrError(xs, true);
  }

  /** For one threshold they agree exactly if Correctable succeeds or no node was skipped. */
  lemma SameVerdictIff<T>(xs: seq<NodeResponse<T>>, threshold: int)
    ensures Verdict(xs, threshold, false) == Verdict(xs, threshold, true)
            <==> |Counted(xs, false)| >= Need(threshold) || NoneSkipped(xs)
  {
    SkipsCount(xs);
    SameErrorsIff(xs);
  }

  /** For all thresholds together they agree exactly if no node was skipped. */
  lemma SameVerdictsIff<T>(xs: seq<NodeResponse<T>>)
    ensures (forall k: int :: Verdict(xs, k, false) == Verdict(xs, k, true)) <==> NoneSkipped(xs)
  {
    forall k: int {
      SameVerdictIff(xs, k);
    }
    if !NoneSkipped(xs) {
      assert Verdict(xs, |xs| + 1, false) != Verdict(xs, |xs| + 1, true) by {
        CountedOrError(xs, false);
        SameVerdictIff(xs, |xs| + 1);
      }
    }
  }
}
