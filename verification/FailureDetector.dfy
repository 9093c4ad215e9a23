/** The leader's failure detector: a record per follower of the highest match seen and when it was
    seen, refreshed or acted on at every periodic check. Times come from a monotonic clock. */
module FailureDetector {
  import opened Wrappers

  datatype Track = Track(matched: nat, at: nat)

  datatype Config = Config(me: nat, timeout: nat)

  /** What one check sees: the clock, whether this node leads, the commit index, every peer's matched
      index, and the iteration order of the peers. */
  datatype Check = Check(now: nat, leader: bool, commit: nat, matched: map<nat, nat>, order: seq<nat>)

  datatype Verdict = Refresh | Report | Keep

  function Elapsed(now: nat, at: nat): nat {
    if at <= now then now - at else 0
  }

  /** Whether the check looks at the peer at all. */
  predicate Looks(cfg: Config, c: Check, p: nat) {
    cfg.timeout != 0 && c.leader && p != cfg.me && p in c.matched
  }

  function Judge(cfg: Config, m: map<nat, Track>, c: Check, p: nat): Verdict {
    if !Looks(cfg, c, p) then Keep
    else if c.matched[p] >= c.commit || p !in m || c.matched[p] > m[p].matched then Refresh
    else if Elapsed(c.now, m[p].at) > cfg.timeout then Report
    else Keep
  }

  /** Refreshed peers carry the new match and time, reported ones are forgotten, the rest is kept. */
  function After(cfg: Config, m: map<nat, Track>, c: Check): map<nat, Track> {
    map p | p in m.Keys + c.matched.Keys
            && (Judge(cfg, m, c, p) == Refresh || (p in m && Judge(cfg, m, c, p) == Keep))
         :: if Judge(cfg, m, c, p) == Refresh then Track(c.matched[p], c.now) else m[p]
  }

  /** The reported peers, in iteration order. */
  function Reports(cfg: Config, m: map<nat, Track>, c: Check, order: seq<nat>): seq<nat> {
    if order == [] then []
    else
      var p := order[|order| - 1];
      Reports(cfg, m, c, order[..|order| - 1]) + if Judge(cfg, m, c, p) == Report then [p] else []
  }

  ghost predicate Distinct(a: seq<nat>) {
    forall i, j :: 0 <= i < j < |a| ==> a[i] != a[j]
  }

  ghost predicate CheckOk(c: Check) {
    && Distinct(c.order)
    && forall p :: p in c.order <==> p in c.matched
  }

  lemma {:induction false} ReportsMembers(cfg: Config, m: map<nat, Track>, c: Check, order: seq<nat>)
    ensures forall p :: p in Reports(cfg, m, c, order) <==> p in order && Judge(cfg, m, c, p) == Report
  {
    hide Judge;
    if order != [] {
      ReportsMembers(cfg, m, c, order[..|order| - 1]);
      assert order == order[..|order| - 1] + [order[|order| - 1]];
    }
  }

  /** A peer that is visited once is reported at most once. */
  lemma {:induction false} ReportsAreDistinct(cfg: Config, m: map<nat, Track>, c: Check, order: seq<nat>)
    requires Distinct(order)
    ensures Distinct(Reports(cfg, m, c, order))
  {
    hide Judge;
    if order != [] {
      var front := order[..|order| - 1];
      ReportsAreDistinct(cfg, m, c, front);
      ReportsMembers(cfg, m, c, front);
      assert order[|order| - 1] !in front;
    }
  }

  /** The map while the peers are visited: reported peers are still in it. */
  function Scanned(cfg: Config, m: map<nat, Track>, c: Check, order: seq<nat>): map<nat, Track>
    requires forall p :: p in order ==> p in c.matched
  {
    if order == [] then m
    else
      var p, rest := order[|order| - 1], Scanned(cfg, m, c, order[..|order| - 1]);
      if Judge(cfg, m, c, p) == Refresh then rest[p := Track(c.matched[p], c.now)] else rest
  }

  lemma {:induction false} ScannedContent(cfg: Config, m: map<nat, Track>, c: Check, order: seq<nat>)
    requires forall p :: p in order ==> p in c.matched
    ensures forall p :: p in Scanned(cfg, m, c, order) <==> p in m || (p in order && Judge(cfg, m, c, p) == Refresh)
    ensures forall p :: p in Scanned(cfg, m, c, order) ==>
              Scanned(cfg, m, c, order)[p]
              == if p in order && Judge(cfg, m, c, p) == Refresh then Track(c.matched[p], c.now) else m[p]
  {
    hide Judge;
    if order != [] {
      ScannedContent(cfg, m, c, order[..|order| - 1]);
      assert order == order[..|order| - 1] + [order[|order| - 1]];
    }
  }

  /** Only peers the check looks at are refreshed or reported. */
  lemma JudgedPeersAreListed(cfg: Config, m: map<nat, Track>, c: Check)
    ensures forall p :: Judge(cfg, m, c, p) != Keep ==> p in c.matched
    ensures forall p :: Judge(cfg, m, c, p) == Report ==> p in m
  {
  }

  lemma ForgettingGivesAfter(cfg: Config, m: map<nat, Track>, c: Check)
    requires CheckOk(c)
    ensures Scanned(cfg, m, c, c.order) - (set p | p in Reports(cfg, m, c, c.order)) == After(cfg, m, c)
  {
    hide Judge, Scanned, Reports;
    JudgedPeersAreListed(cfg, m, c);
    ScannedContent(cfg, m, c, c.order);
    ReportsMembers(cfg, m, c, c.order);
  }

  lemma {:induction false} NoReports(cfg: Config, m: map<nat, Track>, c: Check, order: seq<nat>)
    requires forall p :: !Looks(cfg, c, p)
    ensures Reports(cfg, m, c, order) == []
  {
    if order != [] {
      NoReports(cfg, m, c, order[..|order| - 1]);
    }
  }

  /** A check that looks at nobody changes nothing. */
  lemma IdleCheck(cfg: Config, m: map<nat, Track>, c: Check)
    requires forall p :: !Looks(cfg, c, p)
    ensures After(cfg, m, c) == m && Reports(cfg, m, c, c.order) == []
  {
    NoReports(cfg, m, c, c.order);
  }

  lemma NothingVisited(cfg: Config, m: map<nat, Track>, c: Check)
    ensures Scanned(cfg, m, c, []) == m && Reports(cfg, m, c, []) == []
  {
  }

  /** Visiting one peer: its record is still the one from before the check. */
  lemma VisitPeer(cfg: Config, m: map<nat, Track>, c: Check, i: nat)
    requires CheckOk(c) && i < |c.order|
    ensures var p, seen := c.order[i], Scanned(cfg, m, c, c.order[..i]);
            && p in c.matched
            && (p in seen <==> p in m) && (p in m ==> seen[p] == m[p])
            && Scanned(cfg, m, c, c.order[..i + 1])
               == (if Judge(cfg, m, c, p) == Refresh then seen[p := Track(c.matched[p], c.now)] else seen)
            && Reports(cfg, m, c, c.order[..i + 1])
               == Reports(cfg, m, c, c.order[..i]) + if Judge(cfg, m, c, p) == Report then [p] else []
  {
    hide Judge;
    ScannedContent(cfg, m, c, c.order[..i]);
    assert c.order[..i + 1][..i] == c.order[..i];
    assert c.order[i] !in c.order[..i];
  }

  class ProgressTracker {
    const cfg: Config
    var progress: map<nat, Track>

    constructor (cfg: Config)
      ensures this.cfg == cfg && progress == map[]
    {
      this.cfg, progress := cfg, map[];
    }

    /** Visit the peers in order: refresh the records, collect the peers that stalled. */
    method ScanPeers(c: Check) returns (failed: seq<nat>)
      requires CheckOk(c) && cfg.timeout != 0 && c.leader
      modifies this
      ensures progress == Scanned(cfg, old(progress), c, c.order)
      ensures failed == Reports(cfg, old(progress), c, c.order)
    {
      hide Scanned, Reports;
      failed := [];
      ghost var before := progress;
      NothingVisited(cfg, before, c);
      assert c.order[..0] == [];
      for i := 0 to |c.order|
        invariant progress == Scanned(cfg, before, c, c.order[..i])
        invariant failed == Reports(cfg, before, c, c.order[..i])
      {
        var p := c.order[i];
        VisitPeer(cfg, before, c, i);
        if p == cfg.me {
          continue;
        }
        var matched := c.matched[p];
        if matched >= c.commit {
          progress := progress[p := Track(matched, c.now)];
        } else if p in progress {
          if matched > progress[p].matched {
            progress := progress[p := Track(matched, c.now)];
          } else if Elapsed(c.now, progress[p].at) > cfg.timeout {
            failed := failed + [p];
          }
        } else {
          progress := progress[p := Track(matched, c.now)];
        }
      }
      assert c.order[..|c.order|] == c.order;
    }

    /** One periodic check; returns the nodes whose failure is announced. */
    method CheckFollowerProgress(c: Check) returns (failed: seq<nat>)
      requires CheckOk(c)
      modifies this
      ensures progress == After(cfg, old(progress), c)
      ensures failed == Reports(cfg, old(progress), c, c.order) && Distinct(failed)
    {
      hide Scanned, Reports, After, Judge;
      ghost var before := progress;
      ReportsAreDistinct(cfg, before, c, c.order);
      if cfg.timeout == 0 || !c.leader {
        IdleCheck(cfg, before, c);
        return [];
      }
      failed := ScanPeers(c);
      ghost var scanned := progress;
      for j := 0 to |failed|
        invariant progress == scanned - set p | p in failed[..j]
      {
        progress := progress - {failed[j]};
        assert failed[..j + 1] == failed[..j] + [failed[j]];
      }
      assert failed[..|failed|] == failed;
      ForgettingGivesAfter(cfg, before, c);
    }
  }

  // ----- Runs of checks -----

  function Progress(cfg: Config, checks: seq<Check>): map<nat, Track> {
    if checks == [] then map[]
    else After(cfg, Progress(cfg, checks[..|checks| - 1]), checks[|checks| - 1])
  }

  function JudgedAt(cfg: Config, checks: seq<Check>, i: nat, p: nat): Verdict
    requires i < |checks|
  {
    Judge(cfg, Progress(cfg, checks[..i]), checks[i], p)
  }

  /** The check found the peer caught up, above its recorded match, or newly tracked it. */
  predicate RefreshedAt(cfg: Config, checks: seq<Check>, i: nat, p: nat)
    requires i < |checks|
  {
    JudgedAt(cfg, checks, i, p) == Refresh
  }

  predicate ReportedAt(cfg: Config, checks: seq<Check>, i: nat, p: nat)
    requires i < |checks|
  {
    JudgedAt(cfg, checks, i, p) == Report
  }

  ghost predicate Monotonic(checks: seq<Check>) {
    forall i, j :: 0 <= i <= j < |checks| ==> checks[i].now <= checks[j].now
  }

  /** j is the last check before n that refreshed the peer, and it was not reported since. */
  ghost predicate LastRefresh(cfg: Config, checks: seq<Check>, n: nat, p: nat, j: nat)
    requires n <= |checks|
  {
    && j < n && RefreshedAt(cfg, checks, j, p)
    && forall x: nat :: j < x < n ==> JudgedAt(cfg, checks, x, p) == Keep
  }

  lemma ProgressStep(cfg: Config, checks: seq<Check>, n: nat)
    requires n < |checks|
    ensures Progress(cfg, checks[..n + 1]) == After(cfg, Progress(cfg, checks[..n]), checks[n])
  {
    assert checks[..n + 1][..n] == checks[..n];
  }

  /** The last refresh, found by walking back over the checks that kept the record. */
  function Latest(cfg: Config, checks: seq<Check>, n: nat, p: nat): Option<nat>
    requires n <= |checks|
  {
    if n == 0 then None
    else
      match JudgedAt(cfg, checks, n - 1, p)
      case Refresh => Some(n - 1)
      case Report => None
      case Keep => Latest(cfg, checks, n - 1, p)
  }

  lemma {:induction false} LatestIsLastRefresh(cfg: Config, checks: seq<Check>, n: nat, p: nat, j: nat)
    requires n <= |checks| && j < n
    ensures LastRefresh(cfg, checks, n, p, j) <==> Latest(cfg, checks, n, p) == Some(j)
  {
    hide LastRefresh, JudgedAt;
    LastRefreshStep(cfg, checks, n - 1, p, j);
    if j < n - 1 {
      LatestIsLastRefresh(cfg, checks, n - 1, p, j);
    } else {
      LatestBelow(cfg, checks, n - 1, p);
    }
  }

  lemma {:induction false} LatestBelow(cfg: Config, checks: seq<Check>, n: nat, p: nat)
    requires n <= |checks|
    ensures Latest(cfg, checks, n, p).Some? ==> Latest(cfg, checks, n, p).value < n
  {
    hide JudgedAt;
    if n > 0 {
      LatestBelow(cfg, checks, n - 1, p);
    }
  }

  lemma {:induction false} RecordIsLatest(cfg: Config, checks: seq<Check>, n: nat, p: nat)
    requires n <= |checks|
    ensures var m, last := Progress(cfg, checks[..n]), Latest(cfg, checks, n, p);
            && (p in m <==> last.Some?)
            && (p in m ==> last.value < n && p in checks[last.value].matched
                           && m[p] == Track(checks[last.value].matched[p], checks[last.value].now))
  {
    if n > 0 {
      hide Progress;
      RecordIsLatest(cfg, checks, n - 1, p);
      ProgressStep(cfg, checks, n - 1);
      JudgedPeersAreListed(cfg, Progress(cfg, checks[..n - 1]), checks[n - 1]);
      hide Judge;
    } else {
      assert checks[..n] == [];
    }
  }

  /** The record of a peer is exactly what its last refresh saw; there is none before the first
      refresh and after a report. */
  lemma RecordIsLastRefresh(cfg: Config, checks: seq<Check>, n: nat, p: nat)
    requires n <= |checks|
    ensures p in Progress(cfg, checks[..n]) <==> exists j: nat :: j < n && LastRefresh(cfg, checks, n, p, j)
    ensures forall j: nat :: j < n && LastRefresh(cfg, checks, n, p, j) ==>
              p in Progress(cfg, checks[..n]) && p in checks[j].matched
              && Progress(cfg, checks[..n])[p] == Track(checks[j].matched[p], checks[j].now)
  {
    hide Progress, LastRefresh, Latest;
    RecordIsLatest(cfg, checks, n, p);
    forall j: nat | j < n ensures LastRefresh(cfg, checks, n, p, j) <==> Latest(cfg, checks, n, p) == Some(j) {
      LatestIsLastRefresh(cfg, checks, n, p, j);
    }
    if p in Progress(cfg, checks[..n]) {
      assert LastRefresh(cfg, checks, n, p, Latest(cfg, checks, n, p).value);
    }
  }

  lemma LastRefreshStep(cfg: Config, checks: seq<Check>, n: nat, p: nat, j: nat)
    requires n < |checks| && j <= n
    ensures LastRefresh(cfg, checks, n + 1, p, j)
            == if j == n then RefreshedAt(cfg, checks, n, p)
               else LastRefresh(cfg, checks, n, p, j) && JudgedAt(cfg, checks, n, p) == Keep
  {
    hide JudgedAt;
  }

  /** A check that looks at a peer reports it exactly when it does not refresh it and the last refresh
      is more than the timeout back. */
  lemma ReportedExactly(cfg: Config, checks: seq<Check>, i: nat, p: nat)
    requires i < |checks| && Monotonic(checks)
    ensures ReportedAt(cfg, checks, i, p) <==>
              && Looks(cfg, checks[i], p) && !RefreshedAt(cfg, checks, i, p)
              && exists j: nat ::
                   j < i && LastRefresh(cfg, checks, i, p, j) && checks[i].now - checks[j].now > cfg.timeout
  {
    hide LastRefresh, Progress;
    RecordIsLastRefresh(cfg, checks, i, p);
    var m := Progress(cfg, checks[..i]);
    if p in m {
      var j: nat :| j < i && LastRefresh(cfg, checks, i, p, j);
      LastRefreshBefore(cfg, checks, i, p, j);
      assert checks[j].now <= checks[i].now;
      assert m[p].at == checks[j].now;
    }
  }

  lemma LastRefreshBefore(cfg: Config, checks: seq<Check>, i: nat, p: nat, j: nat)
    requires i <= |checks| && LastRefresh(cfg, checks, i, p, j)
    ensures j < i && RefreshedAt(cfg, checks, j, p)
    ensures forall x: nat :: j < x < i ==> !RefreshedAt(cfg, checks, x, p) && !ReportedAt(cfg, checks, x, p)
  {
    hide JudgedAt;
  }

  /** A follower refreshed within the timeout before a check is not reported by it. */
  lemma RefreshedFollowersAreNotReported(cfg: Config, checks: seq<Check>, j: nat, i: nat, p: nat)
    requires j < i < |checks| && Monotonic(checks)
    requires RefreshedAt(cfg, checks, j, p) && checks[i].now - checks[j].now <= cfg.timeout
    ensures !ReportedAt(cfg, checks, i, p)
  {
    hide JudgedAt, LastRefresh;
    ReportedExactly(cfg, checks, i, p);
    forall k: nat | k < i && LastRefresh(cfg, checks, i, p, k)
      ensures checks[i].now - checks[k].now <= cfg.timeout
    {
      LastRefreshBefore(cfg, checks, i, p, k);
      assert j <= k;
      assert checks[j].now <= checks[k].now;
    }
  }

  /** Two announcements of one peer are more than the timeout apart. */
  lemma ReportsAreTimeoutApart(cfg: Config, checks: seq<Check>, i1: nat, i2: nat, p: nat)
    requires i1 < i2 < |checks| && Monotonic(checks)
    requires ReportedAt(cfg, checks, i1, p) && ReportedAt(cfg, checks, i2, p)
    ensures checks[i2].now - checks[i1].now > cfg.timeout
  {
    hide JudgedAt, LastRefresh;
    ReportedExactly(cfg, checks, i1, p);
    ReportedExactly(cfg, checks, i2, p);
    var k: nat :| k < i2 && LastRefresh(cfg, checks, i2, p, k) && checks[i2].now - checks[k].now > cfg.timeout;
    LastRefreshBefore(cfg, checks, i2, p, k);
    assert i1 <= k;
    assert checks[i1].now <= checks[k].now;
  }

  // ----- Announcements told by what the checks saw -----

  /** The nodes announced by check i of a run. */
  function Announced(cfg: Config, checks: seq<Check>, i: nat): seq<nat>
    requires i < |checks|
  {
    Reports(cfg, Progress(cfg, checks[..i]), checks[i], checks[i].order)
  }

  ghost predicate RunOk(checks: seq<Check>) {
    Monotonic(checks) && forall i :: 0 <= i < |checks| ==> CheckOk(checks[i])
  }

  lemma AnnouncedIsReported(cfg: Config, checks: seq<Check>, i: nat, p: nat)
    requires i < |checks| && RunOk(checks)
    ensures p in Announced(cfg, checks, i) <==> ReportedAt(cfg, checks, i, p)
  {
    hide Progress, Reports;
    ReportsMembers(cfg, Progress(cfg, checks[..i]), checks[i], checks[i].order);
    assert CheckOk(checks[i]);
  }

  predicate CaughtUp(c: Check, p: nat) {
    p in c.matched && c.matched[p] >= c.commit
  }

  /** From w on the record starts afresh: there was no check before, the one before announced the peer, or
      check w finds it caught up. Between w and n it is neither announced nor caught up. */
  ghost predicate Window(cfg: Config, checks: seq<Check>, w: nat, n: nat, p: nat) {
    && w <= n <= |checks|
    && (|| w == 0 || p in Announced(cfg, checks, w - 1)
        || (w < n && Looks(cfg, checks[w], p) && CaughtUp(checks[w], p)))
    && (forall x: nat :: w < x < n && Looks(cfg, checks[x], p) ==> !CaughtUp(checks[x], p))
    && forall x: nat :: w <= x < n ==> p !in Announced(cfg, checks, x)
  }

  /** Check f is the first one in the window that saw the peer's highest match. */
  ghost predicate Peak(cfg: Config, checks: seq<Check>, w: nat, n: nat, p: nat, f: nat) {
    && w <= f < n <= |checks| && Looks(cfg, checks[f], p)
    && (forall x: nat :: w <= x < n && Looks(cfg, checks[x], p) ==> checks[x].matched[p] <= checks[f].matched[p])
    && forall x: nat :: w <= x < f && Looks(cfg, checks[x], p) ==> checks[x].matched[p] < checks[f].matched[p]
  }

  /** What the tracker holds for the peer at the end of a window. */
  ghost predicate HoldsPeak(cfg: Config, checks: seq<Check>, w: nat, n: nat, p: nat, f: Option<nat>)
    requires n <= |checks|
  {
    var m := Progress(cfg, checks[..n]);
    match f
    case None => p !in m && forall x: nat :: w <= x < n ==> !Looks(cfg, checks[x], p)
    case Some(k) => Peak(cfg, checks, w, n, p, k) && p in m && m[p] == Track(checks[k].matched[p], checks[k].now)
  }

  lemma WindowStarts(cfg: Config, checks: seq<Check>, w: nat, p: nat)
    requires RunOk(checks) && w <= |checks| && (w == 0 || p in Announced(cfg, checks, w - 1))
    ensures HoldsPeak(cfg, checks, w, w, p, None)
  {
    if w > 0 {
      AnnouncedIsReported(cfg, checks, w - 1, p);
      ProgressStep(cfg, checks, w - 1);
    }
  }

  lemma PeakStep(cfg: Config, checks: seq<Check>, w: nat, n: nat, p: nat, f: Option<nat>) returns (g: Option<nat>)
    requires RunOk(checks) && w <= n < |checks| && HoldsPeak(cfg, checks, w, n, p, f)
    requires p !in Announced(cfg, checks, n)
    requires w < n && Looks(cfg, checks[n], p) ==> !CaughtUp(checks[n], p)
    ensures HoldsPeak(cfg, checks, w, n + 1, p, g)
  {
    hide Progress, RunOk, Announced;
    AnnouncedIsReported(cfg, checks, n, p);
    ProgressStep(cfg, checks, n);
    g := if JudgedAt(cfg, checks, n, p) == Refresh then Some(n) else f;
  }

  lemma CaughtUpStarts(cfg: Config, checks: seq<Check>, w: nat, p: nat)
    requires w < |checks| && Looks(cfg, checks[w], p) && CaughtUp(checks[w], p)
    ensures HoldsPeak(cfg, checks, w, w + 1, p, Some(w))
  {
    hide Progress;
    ProgressStep(cfg, checks, w);
  }

  /** Through a window the record is the highest match and the time it was first seen. */
  lemma {:induction false} RecordIsPeak(cfg: Config, checks: seq<Check>, w: nat, n: nat, p: nat)
    returns (f: Option<nat>)
    requires RunOk(checks) && Window(cfg, checks, w, n, p)
    ensures HoldsPeak(cfg, checks, w, n, p, f)
  {
    hide HoldsPeak, RunOk, Announced, Looks, CaughtUp;
    if n == w {
      WindowStarts(cfg, checks, w, p);
      f := None;
    } else if n == w + 1 && Looks(cfg, checks[w], p) && CaughtUp(checks[w], p) {
      CaughtUpStarts(cfg, checks, w, p);
      f := Some(w);
    } else {
      f := RecordIsPeak(cfg, checks, w, n - 1, p);
      f := PeakStep(cfg, checks, w, n - 1, p, f);
    }
  }

  /** Every check has a window that leads up to it. */
  lemma {:induction false} WindowExists(cfg: Config, checks: seq<Check>, n: nat, p: nat) returns (w: nat)
    requires n <= |checks|
    ensures Window(cfg, checks, w, n, p)
  {
    hide Announced, Looks, CaughtUp;
    w := 0;
    if n > 0 {
      w := WindowExists(cfg, checks, n - 1, p);
      if p in Announced(cfg, checks, n - 1) {
        w := n;
      } else if Looks(cfg, checks[n - 1], p) && CaughtUp(checks[n - 1], p) {
        w := n - 1;
      }
    }
  }

  /** Some check of the window, more than the timeout before check i, saw a match that none has exceeded. */
  ghost predicate Stalled(cfg: Config, checks: seq<Check>, w: nat, i: nat, p: nat)
    requires i < |checks|
  {
    exists j: nat :: w <= j < i && Looks(cfg, checks[j], p) && checks[i].now - checks[j].now > cfg.timeout
      && forall x: nat :: w <= x <= i && Looks(cfg, checks[x], p) ==> checks[x].matched[p] <= checks[j].matched[p]
  }

  /** A peer is announced if and only if the check looks at it, it is not caught up, and since it was last
      announced or caught up its highest match has stood for longer than the timeout. */
  lemma AnnouncedExactly(cfg: Config, checks: seq<Check>, w: nat, i: nat, p: nat)
    requires RunOk(checks) && i < |checks| && Window(cfg, checks, w, i, p)
    ensures p in Announced(cfg, checks, i) <==>
              Looks(cfg, checks[i], p) && !CaughtUp(checks[i], p) && Stalled(cfg, checks, w, i, p)
  {
    hide Progress, Announced, Window, CheckOk;
    var f := RecordIsPeak(cfg, checks, w, i, p);
    AnnouncedIsReported(cfg, checks, i, p);
    if f.Some? {
      assert checks[f.value].now <= checks[i].now;
      if Stalled(cfg, checks, w, i, p) {
        var j: nat :| w <= j < i && Looks(cfg, checks[j], p) && checks[i].now - checks[j].now > cfg.timeout
          && forall x: nat :: w <= x <= i && Looks(cfg, checks[x], p) ==> checks[x].matched[p] <= checks[j].matched[p];
        assert f.value <= j;
        assert checks[f.value].now <= checks[j].now;
      }
    }
  }

  /** Only a leader with a timeout announces anybody, and never itself or a node it does not replicate to. */
  lemma OnlyFollowersAreAnnounced(cfg: Config, checks: seq<Check>, i: nat, p: nat)
    requires RunOk(checks) && i < |checks| && p in Announced(cfg, checks, i)
    ensures cfg.timeout != 0 && checks[i].leader && p != cfg.me && p in checks[i].matched
  {
    hide Progress, Announced;
    AnnouncedIsReported(cfg, checks, i, p);
  }

  /** A follower found caught up is announced neither by that check nor by a later one within the timeout,
      however far behind it falls. */
  lemma CaughtUpIsNotAnnounced(cfg: Config, checks: seq<Check>, j: nat, i: nat, p: nat)
    requires RunOk(checks) && j <= i < |checks|
    requires checks[j].leader && p != cfg.me && p in checks[j].matched && checks[j].matched[p] >= checks[j].commit
    requires checks[i].now - checks[j].now <= cfg.timeout
    ensures p !in Announced(cfg, checks, i)
  {
    hide Progress, Announced;
    AnnouncedIsReported(cfg, checks, i, p);
    if j < i && cfg.timeout != 0 {
      RefreshedFollowersAreNotReported(cfg, checks, j, i, p);
    }
  }

  /** Nor is one whose match is above all those seen by earlier checks: one that is new, or has grown. */
  lemma NewPeakIsNotAnnounced(cfg: Config, checks: seq<Check>, j: nat, i: nat, p: nat)
    requires RunOk(checks) && j <= i < |checks|
    requires checks[j].leader && p != cfg.me && p in checks[j].matched
    requires forall x: nat :: x < j && checks[x].leader && p in checks[x].matched ==>
               checks[x].matched[p] < checks[j].matched[p]
    requires checks[i].now - checks[j].now <= cfg.timeout
    ensures p !in Announced(cfg, checks, i)
  {
    hide Progress, Announced, Window, CheckOk, Peak;
    AnnouncedIsReported(cfg, checks, i, p);
    var w := WindowExists(cfg, checks, j, p);
    var f := RecordIsPeak(cfg, checks, w, j, p);
    if cfg.timeout != 0 {
      PeakIsSeen(cfg, checks, w, j, p, f);
      assert RefreshedAt(cfg, checks, j, p);
      if j < i {
        RefreshedFollowersAreNotReported(cfg, checks, j, i, p);
      }
    }
  }

  lemma PeakIsSeen(cfg: Config, checks: seq<Check>, w: nat, n: nat, p: nat, f: Option<nat>)
    requires n <= |checks| && HoldsPeak(cfg, checks, w, n, p, f)
    ensures f.Some? ==> f.value < n && Looks(cfg, checks[f.value], p)
  {
  }

  /** A follower a check looked at, that stays behind the commit index and at or below the match seen then
      for longer than the timeout, is announced by one of the checks up to the one that looks at it then. */
  lemma StalledIsAnnounced(cfg: Config, checks: seq<Check>, j: nat, i: nat, p: nat)
    requires RunOk(checks) && j < i < |checks| && cfg.timeout != 0 && p != cfg.me
    requires checks[j].leader && p in checks[j].matched && checks[i].leader && p in checks[i].matched
    requires forall x: nat :: j < x <= i && checks[x].leader && p in checks[x].matched ==>
               checks[x].matched[p] < checks[x].commit && checks[x].matched[p] <= checks[j].matched[p]
    requires checks[i].now - checks[j].now > cfg.timeout
    ensures exists x: nat :: j <= x <= i && p in Announced(cfg, checks, x)
  {
    hide Announced, CheckOk;
    var w := WindowExists(cfg, checks, i, p);
    if !exists x: nat :: j <= x <= i && p in Announced(cfg, checks, x) {
      assert w <= j;
      hide Progress;
      var f := RecordIsPeak(cfg, checks, w, j + 1, p);
      assert f.Some?;
      assert checks[f.value].now <= checks[j].now;
      assert Stalled(cfg, checks, w, i, p);
      AnnouncedExactly(cfg, checks, w, i, p);
    }
  }

  /** Growing since the previous check is not enough: a follower whose match had fallen below its record
      is announced while it catches up. */
  lemma GrowthBelowTheRecordIsAnnounced()
    ensures var checks := [Check(0, true, 9, map[2 := 5], [2]), Check(1, true, 9, map[2 := 1], [2]),
                           Check(10, true, 9, map[2 := 3], [2])];
            RunOk(checks) && 2 in Announced(Config(1, 3), checks, 2)
  {
    var cfg := Config(1, 3);
    var checks := [Check(0, true, 9, map[2 := 5], [2]), Check(1, true, 9, map[2 := 1], [2]),
                   Check(10, true, 9, map[2 := 3], [2])];
    assert CheckOk(checks[0]) && CheckOk(checks[1]) && CheckOk(checks[2]);
    StalledIsAnnounced(cfg, checks, 0, 2, 2);
    NewPeakIsNotAnnounced(cfg, checks, 0, 0, 2);
    NewPeakIsNotAnnounced(cfg, checks, 0, 1, 2);
  }

  /** Records survive the loss of leadership: a follower can be announced by the very first check
      after the node leads again, before it had any chance to make progress. */
  lemma StaleRecordIsReported()
    ensures var checks := [Check(0, true, 5, map[2 := 5], [2]), Check(9, false, 5, map[2 := 5], [2]),
                           Check(10, true, 5, map[2 := 0], [2])];
            && CheckOk(checks[0]) && CheckOk(checks[1]) && CheckOk(checks[2]) && Monotonic(checks)
            && ReportedAt(Config(1, 3), checks, 2, 2)
  {
    var cfg := Config(1, 3);
    var checks := [Check(0, true, 5, map[2 := 5], [2]), Check(9, false, 5, map[2 := 5], [2]),
                   Check(10, true, 5, map[2 := 0], [2])];
    assert checks[..0] == [];
    ProgressStep(cfg, checks, 0);
    ProgressStep(cfg, checks, 1);
    assert Progress(cfg, checks[..1])[2] == Track(5, 0);
    assert Progress(cfg, checks[..2])[2] == Track(5, 0);
  }
}
