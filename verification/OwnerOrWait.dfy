/** Run an operation as owner, or wait for its result as an event: the bounded retry loop of the
    workflow runtime. What the environment answers is a script: who owns the workflow at each attempt,
    what the subscription delivers, and how the owner operation would end. */
module OwnerOrWait {
  import opened Wrappers
  import opened WorkflowState

  const MAX_RETRIES: nat := 10

  datatype Failure = Timeout | ChannelClosed | Other(code: nat)

  datatype Received = Got(event: Event) | Lagged | Closed

  /** A timed wait ends when the feed is used up; an untimed one then blocks. */
  datatype Waited<+T> = Value(value: T) | TimedOut | Disconnected | Blocked

  datatype Outcome<+T> = Done(result: Result<T, Failure>) | StillWaiting

  /** One attempt: the registered owner when it starts and when its wait times out, the feed of its
      fresh subscription, and the result of the owner operation if it is run. */
  datatype Attempt<+T> = Attempt(
    owner: Option<nat>,
    ownerAfter: Option<nat>,
    feed: seq<Received>,
    operation: Result<T, Failure>)

  datatype Ended<+T> = Ended(outcome: Outcome<T>, runs: nat, attempts: nat)

  // ----- Waiting for an event -----

  /** The event is for this workflow and the extractor takes it. */
  function Taken<T>(target: string, extract: Event -> Option<T>, r: Received): Option<T> {
    if r.Got? && r.event.workflow == target then extract(r.event) else None
  }

  predicate Ends<T>(target: string, extract: Event -> Option<T>, r: Received) {
    r.Closed? || Taken(target, extract, r).Some?
  }

  function Wait<T>(target: string, extract: Event -> Option<T>, feed: seq<Received>, timed: bool): Waited<T> {
    if feed == [] then (if timed then TimedOut else Blocked)
    else if feed[0].Closed? then Disconnected
    else if Taken(target, extract, feed[0]).Some? then Value(Taken(target, extract, feed[0]).value)
    else Wait(target, extract, feed[1..], timed)
  }

  method WaitForEvent<T>(target: string, extract: Event -> Option<T>, feed: seq<Received>, timed: bool)
    returns (w: Waited<T>)
    ensures w == Wait(target, extract, feed, timed)
  {
    for i := 0 to |feed|
      invariant Wait(target, extract, feed, timed) == Wait(target, extract, feed[i..], timed)
    {
      assert feed[i..][1..] == feed[i + 1..];
      match feed[i] {
        case Got(event) =>
          if event.workflow == target {
            var taken := extract(event);
            if taken.Some? {
              return Value(taken.value);
            }
          }
        case Lagged =>
        case Closed =>
          return Disconnected;
      }
    }
    w := if timed then TimedOut else Blocked;
  }

  /** A wait is decided by the first element that is accepted or closes the channel. */
  lemma {:induction false} WaitEndsAtTheFirst<T>(
    target: string, extract: Event -> Option<T>, feed: seq<Received>, timed: bool)
    ensures var w := Wait(target, extract, feed, timed);
            if forall i :: 0 <= i < |feed| ==> !Ends(target, extract, feed[i])
            then w == if timed then TimedOut else Blocked
            else exists i :: 0 <= i < |feed| && Ends(target, extract, feed[i])
                             && (forall j :: 0 <= j < i ==> !Ends(target, extract, feed[j]))
                             && w == if feed[i].Closed? then Disconnected
                                     else Value(Taken(target, extract, feed[i]).value)
  {
    if feed != [] {
      if Ends(target, extract, feed[0]) {
        assert Ends(target, extract, feed[0]);
      } else {
        WaitEndsAtTheFirst(target, extract, feed[1..], timed);
        var rest := feed[1..];
        if i :| 0 <= i < |rest| && Ends(target, extract, rest[i])
                && (forall j :: 0 <= j < i ==> !Ends(target, extract, rest[j]))
                && Wait(target, extract, rest, timed)
                   == if rest[i].Closed? then Disconnected else Value(Taken(target, extract, rest[i]).value)
        {
          assert feed[i + 1] == rest[i];
          forall j | 0 <= j < i + 1 ensures !Ends(target, extract, feed[j]) {
            assert j > 0 ==> feed[j] == rest[j - 1];
          }
        } else {
          forall i | 0 <= i < |feed| ensures !Ends(target, extract, feed[i]) {
            assert i > 0 ==> feed[i] == rest[i - 1];
          }
        }
      }
    }
  }

  // ----- The retry loop -----

  /** An ownership change of this workflow is taken as None, an accepted event as Some. */
  function Filter<T>(workflow: string, extract: Event -> Option<T>): Event -> Option<Option<T>> {
    (e: Event) =>
      if e.workflow != workflow then None
      else if e.OwnershipChanged? then Some(None)
      else match extract(e)
           case Some(v) => Some(Some(v))
           case None => None
  }

  /** Without a registered owner every node acts as the owner. */
  predicate IsOwner(me: nat, owner: Option<nat>) {
    match owner
    case Some(o) => o == me
    case None => true
  }

  /** A call: the node, the workflow, the extractor, the environment's answers, and whether the caller
      set a timeout for the last attempt. */
  datatype Call<!T> = Call(
    me: nat,
    workflow: string,
    extract: Event -> Option<T>,
    script: seq<Attempt<T>>,
    passiveTimed: bool)
  {
    ghost predicate Valid() {
      |script| == MAX_RETRIES
    }
  }

  /** Every attempt but the last has its own timeout; the last one has the caller's, if any. */
  function WaitOf<T>(c: Call<T>, a: nat): Waited<Option<T>>
    requires a < |c.script|
  {
    Wait(c.workflow, Filter(c.workflow, c.extract), c.script[a].feed, a < MAX_RETRIES - 1 || c.passiveTimed)
  }

  /** How an attempt decides the call, None if the loop goes on. */
  function Conclusion<T>(c: Call<T>, a: nat): Option<Outcome<T>>
    requires a < |c.script|
  {
    if IsOwner(c.me, c.script[a].owner) then Some(Done(c.script[a].operation))
    else
      match WaitOf(c, a)
      case Value(Some(v)) => Some(Done(Ok(v)))
      case Value(None) => None
      case TimedOut => None
      case Disconnected => Some(Done(Err(ChannelClosed)))
      case Blocked => Some(StillWaiting)
  }

  /** What the loop does from attempt a on. */
  function From<T>(c: Call<T>, a: nat): Ended<T>
    requires c.Valid() && a <= MAX_RETRIES
    decreases MAX_RETRIES - a
  {
    if a == MAX_RETRIES then Ended(Done(Err(Timeout)), 0, a)
    else
      match Conclusion(c, a)
      case Some(o) => Ended(o, if IsOwner(c.me, c.script[a].owner) then 1 else 0, a + 1)
      case None => From(c, a + 1)
  }

  method ExecuteOwnerOrWait<T>(c: Call<T>) returns (outcome: Outcome<T>, runs: nat, attempts: nat)
    requires c.Valid()
    ensures Ended(outcome, runs, attempts) == From(c, 0)
  {
    hide Wait, Filter;
    runs, attempts := 0, 0;
    for attempt := 0 to MAX_RETRIES
      invariant runs == 0 && attempts == attempt
      invariant From(c, 0) == From(c, attempt)
    {
      attempts := attempt + 1;
      var here := c.script[attempt];
      if IsOwner(c.me, here.owner) {
        runs := runs + 1;
        return Done(here.operation), runs, attempts;
      }
      var timed := attempt < MAX_RETRIES - 1 || c.passiveTimed;
      var w := WaitForEvent(c.workflow, Filter(c.workflow, c.extract), here.feed, timed);
      match w {
        case Value(Some(v)) => return Done(Ok(v)), runs, attempts;
        case Value(None) => continue;
        case TimedOut =>
          if IsOwner(c.me, here.ownerAfter) {
            continue;
          } else if attempt == MAX_RETRIES - 1 {
            return Done(Err(Timeout)), runs, attempts;
          }
        case Disconnected => return Done(Err(ChannelClosed)), runs, attempts;
        case Blocked => return StillWaiting, runs, attempts;
      }
    }
    return Done(Err(Timeout)), runs, attempts;
  }

  /** The call is decided by its first conclusive attempt; without one it gives up. */
  lemma {:induction false} FirstConclusionDecides<T>(c: Call<T>, a: nat)
    requires c.Valid() && a <= MAX_RETRIES
    ensures var end := From(c, a);
            && a <= end.attempts <= MAX_RETRIES
            && (forall x: nat :: a <= x < end.attempts - 1 ==> Conclusion(c, x) == None)
            && (if forall x: nat :: a <= x < MAX_RETRIES ==> Conclusion(c, x) == None
                then end == Ended(Done(Err(Timeout)), 0, MAX_RETRIES)
                else a < end.attempts && Conclusion(c, end.attempts - 1) == Some(end.outcome)
                     && end.runs == if IsOwner(c.me, c.script[end.attempts - 1].owner) then 1 else 0)
    decreases MAX_RETRIES - a
  {
    hide Conclusion, IsOwner;
    if a < MAX_RETRIES && Conclusion(c, a) == None {
      FirstConclusionDecides(c, a + 1);
    }
  }

  /** An event of this workflow that the extractor accepts and that is no ownership change. */
  ghost predicate Accepted<T>(c: Call<T>, r: Received, v: T) {
    r.Got? && r.event.workflow == c.workflow && !r.event.OwnershipChanged? && c.extract(r.event) == Some(v)
  }

  /** A lag notice, an event of another workflow, or one of this workflow the extractor refuses;
      never an ownership change of this workflow. */
  ghost predicate Skipped<T>(c: Call<T>, r: Received) {
    || r.Lagged?
    || (r.Got? && (r.event.workflow != c.workflow || (!r.event.OwnershipChanged? && c.extract(r.event) == None)))
  }

  lemma WaitedValueIsFirst<T>(c: Call<T>, a: nat, v: T)
    requires a < |c.script| && WaitOf(c, a) == Value(Some(v))
    ensures var feed := c.script[a].feed;
            exists i :: 0 <= i < |feed| && Accepted(c, feed[i], v) && forall j :: 0 <= j < i ==> Skipped(c, feed[j])
  {
    hide Wait;
    var feed, taken := c.script[a].feed, Filter(c.workflow, c.extract);
    WaitEndsAtTheFirst(c.workflow, taken, feed, a < MAX_RETRIES - 1 || c.passiveTimed);
    var i :| 0 <= i < |feed| && Ends(c.workflow, taken, feed[i])
             && (forall j :: 0 <= j < i ==> !Ends(c.workflow, taken, feed[j]))
             && WaitOf(c, a) == if feed[i].Closed? then Disconnected
                                else Value(Taken(c.workflow, taken, feed[i]).value);
    assert Accepted(c, feed[i], v);
    forall j | 0 <= j < i ensures Skipped(c, feed[j]) {
      assert !Ends(c.workflow, taken, feed[j]);
    }
  }

  /** A call runs the owner operation at most once, and exactly when its last attempt saw ownership,
      which no earlier one did. Any other Ok value comes from the last attempt's subscription: the
      first event of the workflow the extractor accepts, with no ownership change before it. */
  lemma OperationOnceOrFirstEvent<T>(c: Call<T>)
    requires c.Valid()
    ensures var end := From(c, 0);
            && 1 <= end.attempts <= MAX_RETRIES && end.runs <= 1
            && (forall x: nat :: x < end.attempts - 1 ==> !IsOwner(c.me, c.script[x].owner))
            && (end.runs == 1 <==> IsOwner(c.me, c.script[end.attempts - 1].owner))
            && (end.runs == 1 ==> end.outcome == Done(c.script[end.attempts - 1].operation))
            && (end.runs == 0 && end.outcome.Done? && end.outcome.result.Ok? ==>
                  var feed := c.script[end.attempts - 1].feed;
                  exists i :: 0 <= i < |feed| && Accepted(c, feed[i], end.outcome.result.value)
                              && forall j :: 0 <= j < i ==> Skipped(c, feed[j]))
  {
    hide WaitOf, IsOwner, Accepted, Skipped, From;
    FirstConclusionDecides(c, 0);
    var end := From(c, 0);
    assert end.attempts > 0;
    var last: nat := end.attempts - 1;
    assert Conclusion(c, last) == None || Conclusion(c, last) == Some(end.outcome);
    forall x: nat | x < last ensures !IsOwner(c.me, c.script[x].owner) {
      assert Conclusion(c, x) == None;
    }
    if end.runs == 0 && end.outcome.Done? && end.outcome.result.Ok? {
      WaitedValueIsFirst(c, last, end.outcome.result.value);
    }
  }

  /** Without having run the operation, the call times out exactly when all ten attempts are
      inconclusive: no ownership when the attempt starts, and its wait ends by timeout or by an
      ownership change. What the ownership check after a timeout answers makes no difference. */
  lemma GivesUpExactly<T>(c: Call<T>)
    requires c.Valid()
    ensures var end := From(c, 0);
            end.outcome == Done(Err(Timeout)) && end.runs == 0 <==>
            forall x: nat :: x < MAX_RETRIES ==>
              !IsOwner(c.me, c.script[x].owner) && (WaitOf(c, x) == Value(None) || WaitOf(c, x) == TimedOut)
  {
    hide WaitOf, IsOwner, From;
    FirstConclusionDecides(c, 0);
    forall x: nat | x < MAX_RETRIES
      ensures Conclusion(c, x) == None <==>
              !IsOwner(c.me, c.script[x].owner) && (WaitOf(c, x) == Value(None) || WaitOf(c, x) == TimedOut)
    {
    }
  }

  // ----- The call told by owners and feeds alone -----

  ghost predicate AllSkipped<T>(c: Call<T>, feed: seq<Received>, n: nat)
    requires n <= |feed|
  {
    forall j: nat :: j < n ==> Skipped(c, feed[j])
  }

  /** Another node is registered when the attempt starts, and its feed holds nothing for the caller up
      to the timeout or up to an ownership change of the workflow. */
  ghost predicate Fruitless<T>(c: Call<T>, x: nat)
    requires x < |c.script|
  {
    var feed := c.script[x].feed;
    && c.script[x].owner.Some? && c.script[x].owner.value != c.me
    && (|| (AllSkipped(c, feed, |feed|) && (x < MAX_RETRIES - 1 || c.passiveTimed))
        || exists i: nat :: i < |feed| && AllSkipped(c, feed, i) && feed[i].Got?
                            && feed[i].event.OwnershipChanged? && feed[i].event.workflow == c.workflow)
  }

  /** Attempt a is reached, no other node is registered when it starts. */
  ghost predicate RunsAt<T>(c: Call<T>, a: nat) {
    && a < |c.script|
    && (forall x: nat :: x < a ==> Fruitless(c, x))
    && (c.script[a].owner == None || c.script[a].owner == Some(c.me))
  }

  /** Attempt a is reached with another node registered, and its feed delivers element i to the caller. */
  ghost predicate HearsAt<T>(c: Call<T>, a: nat, i: nat) {
    && a < |c.script| && i < |c.script[a].feed|
    && (forall x: nat :: x < a ==> Fruitless(c, x))
    && c.script[a].owner.Some? && c.script[a].owner.value != c.me
    && AllSkipped(c, c.script[a].feed, i)
  }

  /** Skipped elements do not change what a wait ends with. */
  lemma {:induction false} WaitSkips<T>(c: Call<T>, feed: seq<Received>, timed: bool, n: nat)
    requires n <= |feed| && AllSkipped(c, feed, n)
    ensures Wait(c.workflow, Filter(c.workflow, c.extract), feed, timed)
            == Wait(c.workflow, Filter(c.workflow, c.extract), feed[n..], timed)
  {
    if n > 0 {
      WaitSkips(c, feed, timed, n - 1);
      assert Skipped(c, feed[n - 1]);
      assert feed[n - 1..][1..] == feed[n..];
    } else {
      assert feed[0..] == feed;
    }
  }

  lemma FruitlessGoesOn<T>(c: Call<T>, x: nat)
    requires x < |c.script| && Fruitless(c, x)
    ensures Conclusion(c, x) == None
  {
    hide AllSkipped;
    var feed, timed := c.script[x].feed, x < MAX_RETRIES - 1 || c.passiveTimed;
    if AllSkipped(c, feed, |feed|) && timed {
      WaitSkips(c, feed, timed, |feed|);
    } else {
      var i: nat :| i < |feed| && AllSkipped(c, feed, i) && feed[i].Got?
                    && feed[i].event.OwnershipChanged? && feed[i].event.workflow == c.workflow;
      WaitSkips(c, feed, timed, i);
      assert feed[i..][0] == feed[i];
    }
  }

  lemma NoConclusionIsFruitless<T>(c: Call<T>, x: nat)
    requires x < |c.script| && Conclusion(c, x) == None
    ensures Fruitless(c, x)
  {
    hide Wait, Skipped;
    var feed, timed := c.script[x].feed, x < MAX_RETRIES - 1 || c.passiveTimed;
    FirstNotSkipped(c, feed);
    if AllSkipped(c, feed, |feed|) {
      WaitSkips(c, feed, timed, |feed|);
      WaitAtEnd(c, timed);
      assert feed[|feed|..] == [];
    } else {
      var i: nat :| i < |feed| && AllSkipped(c, feed, i) && !Skipped(c, feed[i]);
      WaitSkips(c, feed, timed, i);
      WaitHere(c, feed[i..], timed);
      assert feed[i..][0] == feed[i];
    }
  }

  lemma WaitAtEnd<T>(c: Call<T>, timed: bool)
    ensures Wait(c.workflow, Filter(c.workflow, c.extract), [], timed) == if timed then TimedOut else Blocked
  {
  }

  lemma WaitHere<T>(c: Call<T>, feed: seq<Received>, timed: bool)
    requires feed != [] && !Skipped(c, feed[0])
    ensures Wait(c.workflow, Filter(c.workflow, c.extract), feed, timed) == Value(None) ==>
              feed[0].Got? && feed[0].event.OwnershipChanged? && feed[0].event.workflow == c.workflow
    ensures Wait(c.workflow, Filter(c.workflow, c.extract), feed, timed) != TimedOut
  {
  }

  lemma {:induction false} FruitlessPrefix<T>(c: Call<T>, a: nat)
    requires c.Valid() && a <= MAX_RETRIES && forall x: nat :: x < a ==> Fruitless(c, x)
    ensures From(c, 0) == From(c, a)
  {
    hide Conclusion, Fruitless;
    if a > 0 {
      FruitlessPrefix(c, a - 1);
      FruitlessGoesOn(c, a - 1);
    }
  }

  /** The registered owner, or any node of a workflow without one, runs its operation once and answers
      with its result. */
  lemma OwnerRunsItsOperation<T>(c: Call<T>, a: nat)
    requires c.Valid() && RunsAt(c, a)
    ensures From(c, 0) == Ended(Done(c.script[a].operation), 1, a + 1)
  {
    FruitlessPrefix(c, a);
  }

  /** A call that ran its operation did so at the first attempt that found no other node registered, and
      every attempt before it was fruitless. */
  lemma RunIsAt<T>(c: Call<T>)
    requires c.Valid() && From(c, 0).runs == 1
    ensures 1 <= From(c, 0).attempts <= MAX_RETRIES && RunsAt(c, From(c, 0).attempts - 1)
    ensures From(c, 0).outcome == Done(c.script[From(c, 0).attempts - 1].operation)
  {
    hide From, Fruitless, WaitOf;
    OperationOnceOrFirstEvent(c);
    FirstConclusionDecides(c, 0);
    var last := From(c, 0).attempts - 1;
    forall x: nat | x < last ensures Fruitless(c, x) {
      NoConclusionIsFruitless(c, x);
    }
  }

  /** A waiting node answers with the first event of the workflow that the extractor takes, with an
      error when the channel is closed first; an ownership change sends it back to the check. */
  lemma FollowerAnswersWithTheEvent<T>(c: Call<T>, a: nat, i: nat)
    requires c.Valid() && HearsAt(c, a, i)
    ensures var r := c.script[a].feed[i];
            && (forall v :: r.Got? && r.event.workflow == c.workflow && !r.event.OwnershipChanged?
                            && c.extract(r.event) == Some(v) ==>
                  From(c, 0) == Ended(Done(Ok(v)), 0, a + 1))
            && (r.Closed? ==> From(c, 0) == Ended(Done(Err(ChannelClosed)), 0, a + 1))
            && (r.Got? && r.event.workflow == c.workflow && r.event.OwnershipChanged? ==>
                  From(c, 0) == From(c, a + 1))
  {
    hide AllSkipped;
    var feed, timed := c.script[a].feed, a < MAX_RETRIES - 1 || c.passiveTimed;
    FruitlessPrefix(c, a);
    WaitSkips(c, feed, timed, i);
    assert feed[i..][0] == feed[i];
  }

  /** Ten fruitless attempts end in a timeout; nine of them and an idle last one without a timeout of
      the caller never end. */
  lemma FruitlessCallsGiveUp<T>(c: Call<T>)
    requires c.Valid() && forall x: nat :: x < MAX_RETRIES - 1 ==> Fruitless(c, x)
    ensures Fruitless(c, MAX_RETRIES - 1) ==> From(c, 0) == Ended(Done(Err(Timeout)), 0, MAX_RETRIES)
    ensures var last := c.script[MAX_RETRIES - 1];
            last.owner.Some? && last.owner.value != c.me && AllSkipped(c, last.feed, |last.feed|)
            && !c.passiveTimed ==>
              From(c, 0) == Ended(StillWaiting, 0, MAX_RETRIES)
  {
    hide AllSkipped;
    var last := c.script[MAX_RETRIES - 1];
    FruitlessPrefix(c, MAX_RETRIES - 1);
    if Fruitless(c, MAX_RETRIES - 1) {
      FruitlessGoesOn(c, MAX_RETRIES - 1);
    }
    if AllSkipped(c, last.feed, |last.feed|) {
      WaitSkips(c, last.feed, c.passiveTimed, |last.feed|);
    }
  }

  /** Every call is one of these: the cases above leave none out. */
  lemma EveryCallIsOneOfThese<T>(c: Call<T>)
    requires c.Valid()
    ensures || (exists a: nat :: RunsAt(c, a))
            || (exists a: nat, i: nat :: HearsAt(c, a, i) && !Skipped(c, c.script[a].feed[i]))
            || (forall x: nat :: x < MAX_RETRIES - 1 ==> Fruitless(c, x))
  {
    hide Fruitless, Skipped;
    if a: nat :| a < MAX_RETRIES - 1 && !Fruitless(c, a) && forall x: nat :: x < a ==> Fruitless(c, x) {
      FruitlessUnlessDecided(c, a);
    } else {
      AllOrFirst(c, MAX_RETRIES - 1);
    }
  }

  lemma {:induction false} AllOrFirst<T>(c: Call<T>, n: nat)
    requires c.Valid() && n <= MAX_RETRIES
    requires !exists a: nat :: a < n && !Fruitless(c, a) && forall x: nat :: x < a ==> Fruitless(c, x)
    ensures forall x: nat :: x < n ==> Fruitless(c, x)
  {
    hide Fruitless;
    if n > 0 {
      AllOrFirst(c, n - 1);
    }
  }

  lemma FruitlessUnlessDecided<T>(c: Call<T>, a: nat)
    requires c.Valid() && a < MAX_RETRIES - 1 && !Fruitless(c, a) && forall x: nat :: x < a ==> Fruitless(c, x)
    ensures RunsAt(c, a) || exists i: nat :: HearsAt(c, a, i) && !Skipped(c, c.script[a].feed[i])
  {
    hide Skipped;
    var feed := c.script[a].feed;
    if !RunsAt(c, a) {
      FirstNotSkipped(c, feed);
      var i: nat :| i < |feed| && AllSkipped(c, feed, i) && !Skipped(c, feed[i]);
      assert HearsAt(c, a, i);
    }
  }

  lemma {:induction false} FirstNotSkipped<T>(c: Call<T>, feed: seq<Received>)
    ensures AllSkipped(c, feed, |feed|) || exists i: nat :: i < |feed| && AllSkipped(c, feed, i) && !Skipped(c, feed[i])
  {
    hide Skipped;
    if feed != [] {
      var before := feed[..|feed| - 1];
      FirstNotSkipped(c, before);
      if AllSkipped(c, before, |before|) {
        assert AllSkipped(c, feed, |before|);
      } else {
        var i: nat :| i < |before| && AllSkipped(c, before, i) && !Skipped(c, before[i]);
        assert AllSkipped(c, feed, i) && feed[i] == before[i];
      }
    }
  }

  /** While every attempt finds another node registered, the operation is never run. */
  lemma {:induction false} NonOwnerNeverRuns<T>(c: Call<T>, a: nat)
    requires c.Valid() && a <= MAX_RETRIES
    requires forall x: nat :: a <= x < MAX_RETRIES ==> c.script[x].owner.Some? && c.script[x].owner.value != c.me
    ensures From(c, a).runs == 0
    decreases MAX_RETRIES - a
  {
    hide WaitOf;
    if a < MAX_RETRIES && Conclusion(c, a) == None {
      NonOwnerNeverRuns(c, a + 1);
    }
  }

  /** So a node that becomes the owner during the last attempt never runs the operation,
      with or without a timeout of the caller. */
  lemma OwnerInTheLastAttemptGivesUp<T>(
    me: nat, other: nat, workflow: string, extract: Event -> Option<T>, op: Result<T, Failure>,
                                        passiveTimed: bool)
    requires other != me
    ensures var idle := Attempt(Some(other), Some(other), [], op);
            var gained := Attempt(Some(other), Some(me), [Got(OwnershipChanged(workflow, other, me))], op);
            From(Call(me, workflow, extract, [idle, idle, idle, idle, idle, idle, idle, idle, idle, gained],
                passiveTimed), 0)
            == Ended(Done(Err(Timeout)), 0, MAX_RETRIES)
  {
    var idle := Attempt(Some(other), Some(other), [], op);
    var gained := Attempt(Some(other), Some(me), [Got(OwnershipChanged(workflow, other, me))], op);
    var c := Call(me, workflow, extract, [idle, idle, idle, idle, idle, idle, idle, idle, idle, gained], passiveTimed);
    hide From;
    FirstConclusionDecides(c, 0);
    forall x: nat | x < MAX_RETRIES ensures Conclusion(c, x) == None {
      assert c.script[x] == if x < 9 then idle else gained;
    }
  }
}
