/** Outbound Slack deliveries: the retry queue in the store, the drains that work on it side by
    side, and the posting loop of one delivery. */
module Outbound {
  import opened Wrappers
  import opened Lists
  import Sorting

  // ---------------------------------------------------------------- one post with retries

  /** What one Slack call came to, already classified. */
  datatype SlackResult =
    | Posted
    | Refused(rateLimited: bool, retryable: bool, retryDelayMs: Option<int>)

  /** The n-th call has an arbitrary result. */
  type Responses = nat -> SlackResult

  const MAXIMUM_SLACK_POST_ATTEMPTS := 5
  const DEFAULT_SLACK_POST_MAX_ATTEMPTS := 3

  function Clamp(value: int, low: int, high: int): int {
    if value < low then low else if high < value then high else value
  }

  /** `None` is an absent or infinite number. */
  function NormalizePostAttempts(value: Option<real>): (n: nat)
    ensures 1 <= n <= MAXIMUM_SLACK_POST_ATTEMPTS
  {
    if value.None? then DEFAULT_SLACK_POST_MAX_ATTEMPTS else Clamp(value.value.Floor, 1, MAXIMUM_SLACK_POST_ATTEMPTS)
  }

  /** A refusal that is worth another call at once. */
  predicate TryAgain(r: SlackResult) {
    && r.Refused? && r.retryable
    && !(r.rateLimited && r.retryDelayMs.Some? && r.retryDelayMs.value > 0)
  }

  /** The results of the calls from call number `attempt` on, counted from 1. */
  function PostFrom(responses: Responses, attempt: nat, maxAttempts: nat): seq<SlackResult>
    requires 1 <= attempt <= maxAttempts
    decreases maxAttempts - attempt
  {
    var r := responses(attempt);
    if TryAgain(r) && attempt < maxAttempts then [r] + PostFrom(responses, attempt + 1, maxAttempts) else [r]
  }

  lemma PostUnrolled(responses: Responses, attempt: nat, maxAttempts: nat)
    requires 1 <= attempt <= maxAttempts
    ensures TryAgain(responses(attempt)) && attempt < maxAttempts ==>
              PostFrom(responses, attempt, maxAttempts)
              == [responses(attempt)] + PostFrom(responses, attempt + 1, maxAttempts)
    ensures !(TryAgain(responses(attempt)) && attempt < maxAttempts) ==>
              PostFrom(responses, attempt, maxAttempts) == [responses(attempt)]
  {
  }

  /** One more call: what the calls so far and those still to come make together stays the same. */
  lemma PostMore(attempts: seq<SlackResult>, responses: Responses, attempt: nat, maxAttempts: nat)
    requires 1 <= attempt <= maxAttempts
    ensures var result := responses(attempt);
            attempts + PostFrom(responses, attempt, maxAttempts)
            == attempts + [result]
               + if TryAgain(result) && attempt < maxAttempts then PostFrom(responses, attempt + 1, maxAttempts) else []
  {
    PostUnrolled(responses, attempt, maxAttempts);
    hide PostFrom, TryAgain;
  }

  method PostMessageWithRetry(responses: Responses, maxPostAttempts: nat) returns (attempts: seq<SlackResult>)
    requires maxPostAttempts >= 1
    ensures attempts == PostFrom(responses, 1, maxPostAttempts)
  {
    hide PostFrom;
    attempts := [];
    var attempt := 1;
    while attempt <= maxPostAttempts
      invariant 1 <= attempt <= maxPostAttempts
      invariant attempts + PostFrom(responses, attempt, maxPostAttempts) == PostFrom(responses, 1, maxPostAttempts)
    {
      PostMore(attempts, responses, attempt, maxPostAttempts);
      var result := responses(attempt);
      attempts := attempts + [result];
      if result.Posted? {
        return;
      }
      if result.rateLimited && result.retryDelayMs.Some? && result.retryDelayMs.value > 0 {
        return;
      }
      if !result.retryable || attempt >= maxPostAttempts {
        return;
      }
      attempt := attempt + 1;
    }
  }

  /** At least one and at most `maxAttempts` calls; only the last can be anything but a refusal that
      is retried at once, and it is one only when the calls ran out. */
  lemma {:induction false} PostCalls(responses: Responses, attempt: nat, maxAttempts: nat)
    requires 1 <= attempt <= maxAttempts
    ensures var a := PostFrom(responses, attempt, maxAttempts);
            && 1 <= |a| <= maxAttempts - attempt + 1
            && (forall i :: 0 <= i < |a| ==> a[i] == responses(attempt + i))
            && (forall i :: 0 <= i < |a| - 1 ==> TryAgain(a[i]))
            && (TryAgain(a[|a| - 1]) ==> |a| == maxAttempts - attempt + 1)
    decreases maxAttempts - attempt
  {
    if TryAgain(responses(attempt)) && attempt < maxAttempts {
      PostCalls(responses, attempt + 1, maxAttempts);
    }
  }

  // ---------------------------------------------------------------- the store

  datatype Status = Queued | Delivering | Delivered | Failed

  /** `message` is absent when the saved payload cannot be turned into a Slack message. */
  datatype Delivery = Delivery(
    id: string, key: string, status: Status, message: Option<string>, attempts: nat, maxAttempts: nat,
    nextAttemptAt: Option<int>, createdAt: int)

  const DEFAULT_MAX_ATTEMPTS := 5
  const HIGHEST_MAX_ATTEMPTS := 20

  function NormalizeMaxAttempts(value: Option<real>): (n: nat)
    ensures 1 <= n <= HIGHEST_MAX_ATTEMPTS
  {
    if value.None? then DEFAULT_MAX_ATTEMPTS else Clamp(value.value.Floor, 1, HIGHEST_MAX_ATTEMPTS)
  }

  function KeyIndex(deliveries: seq<Delivery>, key: string): (i: nat)
    ensures i <= |deliveries| && (i < |deliveries| ==> deliveries[i].key == key)
  {
    IndexOf(deliveries, (d: Delivery) => d.key == key)
  }

  function IdIndex(deliveries: seq<Delivery>, id: string): (i: nat)
    ensures i <= |deliveries| && (i < |deliveries| ==> deliveries[i].id == id)
    ensures forall j :: 0 <= j < i ==> deliveries[j].id != id
  {
    IndexOf(deliveries, (d: Delivery) => d.id == id)
  }

  function Requeued(d: Delivery, message: Option<string>, maxAttempts: Option<real>, now: int): Delivery {
    var updated := d.(message := message, maxAttempts := NormalizeMaxAttempts(maxAttempts));
    if d.status == Failed then updated.(status := Queued, nextAttemptAt := Some(now)) else updated
  }

  function Enqueued(deliveries: seq<Delivery>, key: string, message: Option<string>, maxAttempts: Option<real>,
                    id: string, now: int): seq<Delivery> {
    var i := KeyIndex(deliveries, key);
    if i < |deliveries| then deliveries[i := Requeued(deliveries[i], message, maxAttempts, now)]
    else [Delivery(id, key, Queued, message, 0, NormalizeMaxAttempts(maxAttempts), Some(now), now)] + deliveries
  }

  function DueAt(d: Delivery): int {
    if d.nextAttemptAt.Some? then d.nextAttemptAt.value else d.createdAt
  }

  function IsDue(now: int): Delivery -> bool {
    (d: Delivery) => d.status == Queued && DueAt(d) <= now
  }

  const EARLIER: (Delivery, Delivery) -> bool := (a: Delivery, b: Delivery) => DueAt(a) <= DueAt(b)

  function ListDue(deliveries: seq<Delivery>, now: int, limit: Option<int>): seq<Delivery> {
    var most := if limit.None? then 25 else if limit.value < 1 then 1 else limit.value;
    var due := Sorting.Sort(Select(deliveries, IsDue(now)), EARLIER);
    if |due| <= most then due else due[..most]
  }

  const DEFAULT_DRAIN_LIMIT := 10

  function ListDueForDrain(deliveries: seq<Delivery>, now: int, limit: Option<int>): seq<Delivery> {
    ListDue(deliveries, now, Some(OrElse(limit, DEFAULT_DRAIN_LIMIT)))
  }

  function Begun(d: Delivery): Delivery {
    d.(status := Delivering, attempts := d.attempts + 1, nextAttemptAt := None)
  }

  function Completed(d: Delivery): Delivery {
    d.(status := Delivered, nextAttemptAt := None)
  }

  /** An absent `retryable` counts as true. */
  function FailedOnce(d: Delivery, retryable: Option<bool>, retryDelayMs: Option<int>, now: int): Delivery {
    if retryable != Some(false) && d.attempts < d.maxAttempts then
      var delay := if retryDelayMs.None? then 1000 else if retryDelayMs.value < 0 then 0 else retryDelayMs.value;
      d.(status := Queued, nextAttemptAt := Some(now + delay))
    else d.(status := Failed, nextAttemptAt := None)
  }

  /** How the posting of a begun delivery will end. Posting can throw before any Slack call or while
      it records the result of the calls. */
  datatype Post =
    | NotAttempted
    | Answered(responses: Responses)
    | Threw(made: Option<Responses>)

  function AfterPost(d: Delivery, post: Post, now: int, maxPostAttempts: nat): Delivery
    requires !post.Threw? && maxPostAttempts >= 1
  {
    match post
    case NotAttempted => FailedOnce(d, Some(false), Some(0), now)
    case Answered(responses) =>
      var attempts := PostFrom(responses, 1, maxPostAttempts);
      PostCalls(responses, 1, maxPostAttempts);
      var last := attempts[|attempts| - 1];
      if last.Posted? then Completed(d)
      else
        var fallback := if last.retryable then 5000 else 0;
        FailedOnce(d, Some(last.retryable),
                   Some(if last.retryDelayMs.Some? then last.retryDelayMs.value else fallback), now)
  }

  /** What a drain does with one listed delivery, and whether it goes on. */
  function WorkOn(deliveries: seq<Delivery>, listed: Delivery, post: Post, now: int,
                  maxPostAttempts: nat): (seq<Delivery>, bool)
    requires maxPostAttempts >= 1
  {
    var i := IdIndex(deliveries, listed.id);
    if i == |deliveries| || deliveries[i].status != Queued then (deliveries, false)
    else
      var begun := Begun(deliveries[i]);
      if listed.message.None? then (deliveries[i := FailedOnce(begun, Some(false), None, now)], true)
      else if post.Threw? then (deliveries[i := begun], false)
      else (deliveries[i := AfterPost(begun, post, now, maxPostAttempts)], true)
  }

  /** A whole drain that no other one interrupts. */
  function Drained(deliveries: seq<Delivery>, due: seq<Delivery>, posts: nat -> Post, index: nat, now: int,
                   maxPostAttempts: nat)
    : (seq<Delivery>, bool)
    requires maxPostAttempts >= 1
    decreases due
  {
    if due == [] then (deliveries, true)
    else
      var (next, goesOn) := WorkOn(deliveries, due[0], posts(index), now, maxPostAttempts);
      if goesOn then Drained(next, due[1..], posts, index + 1, now, maxPostAttempts) else (next, false)
  }

  class BekStore {
    var deliveries: seq<Delivery>

    constructor ()
      ensures deliveries == []
    {
      deliveries := [];
    }

    method EnqueueOutboundDelivery(key: string, message: Option<string>, maxAttempts: Option<real>, id: string,
                                   now: int)
      returns (delivery: Delivery)
      modifies this
      ensures deliveries == Enqueued(old(deliveries), key, message, maxAttempts, id, now)
      ensures delivery in deliveries && delivery.key == key
    {
      var i := KeyIndex(deliveries, key);
      if i < |deliveries| {
        delivery := deliveries[i].(message := message, maxAttempts := NormalizeMaxAttempts(maxAttempts));
        if delivery.status == Failed {
          delivery := delivery.(status := Queued, nextAttemptAt := Some(now));
        }
        deliveries := deliveries[i := delivery];
        assert deliveries[i] == delivery;
        return;
      }
      delivery := Delivery(id, key, Queued, message, 0, NormalizeMaxAttempts(maxAttempts), Some(now), now);
      deliveries := [delivery] + deliveries;
    }

    method BeginOutboundDelivery(id: string) returns (result: Result<Delivery>)
      modifies this
      ensures var i := IdIndex(old(deliveries), id);
              if i < |old(deliveries)| && old(deliveries)[i].status == Queued then
                result == Ok(Begun(old(deliveries)[i])) && deliveries == old(deliveries)[i := Begun(old(deliveries)[i])]
              else result.Err? && deliveries == old(deliveries)
    {
      var i := IdIndex(deliveries, id);
      if i == |deliveries| {
        return Err("Outbound delivery not found.");
      }
      if deliveries[i].status != Queued {
        return Err("Outbound delivery is not queued.");
      }
      deliveries := deliveries[i := Begun(deliveries[i])];
      return Ok(deliveries[i]);
    }

    method CompleteOutboundDelivery(id: string) returns (result: Result<Delivery>)
      modifies this
      ensures var i := IdIndex(old(deliveries), id);
              if i < |old(deliveries)| then
                result == Ok(Completed(old(deliveries)[i]))
                  && deliveries == old(deliveries)[i := Completed(old(deliveries)[i])]
              else result.Err? && deliveries == old(deliveries)
    {
      var i := IdIndex(deliveries, id);
      if i == |deliveries| {
        return Err("Outbound delivery not found.");
      }
      deliveries := deliveries[i := Completed(deliveries[i])];
      return Ok(deliveries[i]);
    }

    method FailOutboundDelivery(id: string, retryable: Option<bool>, retryDelayMs: Option<int>, now: int)
      returns (result: Result<Delivery>)
      modifies this
      ensures var i := IdIndex(old(deliveries), id);
              if i < |old(deliveries)| then
                var failed := FailedOnce(old(deliveries)[i], retryable, retryDelayMs, now);
                result == Ok(failed) && deliveries == old(deliveries)[i := failed]
              else result.Err? && deliveries == old(deliveries)
    {
      var i := IdIndex(deliveries, id);
      if i == |deliveries| {
        return Err("Outbound delivery not found.");
      }
      deliveries := deliveries[i := FailedOnce(deliveries[i], retryable, retryDelayMs, now)];
      return Ok(deliveries[i]);
    }
  }

  /** One pass of the drain loop; `goesOn` is false when it throws because the delivery was taken or
      posting threw. */
  method DeliverListed(store: BekStore, delivery: Delivery, post: Post, now: int,
                       maxPostAttempts: nat) returns (goesOn: bool)
    requires maxPostAttempts >= 1
    modifies store
    ensures (store.deliveries, goesOn) == WorkOn(old(store.deliveries), delivery, post, now, maxPostAttempts)
  {
    ghost var before := store.deliveries;
    ghost var i := IdIndex(before, delivery.id);
    var delivering := store.BeginOutboundDelivery(delivery.id);
    if delivering.Err? {
      return false;
    }
    BegunIsFound(before, i);
    if delivery.message.None? {
      UpdatedTwice(before, i, Begun(before[i]), FailedOnce(Begun(before[i]), Some(false), None, now));
      var _ := store.FailOutboundDelivery(delivery.id, Some(false), None, now);
      return true;
    }
    if post.Threw? {
      if post.made.Some? {
        var _ := PostMessageWithRetry(post.made.value, maxPostAttempts);
      }
      return false;
    }
    UpdatedTwice(before, i, Begun(before[i]), AfterPost(Begun(before[i]), post, now, maxPostAttempts));
    match post {
      case NotAttempted => var _ := store.FailOutboundDelivery(delivery.id, Some(false), Some(0), now);
      case Answered(responses) =>
        var attempts := PostMessageWithRetry(responses, maxPostAttempts);
        PostCalls(responses, 1, maxPostAttempts);
        var last := attempts[|attempts| - 1];
        if last.Posted? {
          var _ := store.CompleteOutboundDelivery(delivery.id);
        } else {
          var delay := OrElse(last.retryDelayMs, if last.retryable then 5000 else 0);
          var _ := store.FailOutboundDelivery(delivery.id, Some(last.retryable), Some(delay), now);
        }
    }
    return true;
  }

  /** The drain loop over the deliveries due at its start. */
  method DrainSlackOutboundDeliveries(store: BekStore, posts: nat -> Post, now: int, limit: Option<int>,
                                      maxPostAttempts: nat)
    returns (ok: bool)
    requires maxPostAttempts >= 1
    modifies store
    ensures (store.deliveries, ok)
         == Drained(old(store.deliveries), ListDueForDrain(old(store.deliveries), now, limit), posts, 0, now,
                    maxPostAttempts)
  {
    hide ListDueForDrain, WorkOn;
    var due := ListDueForDrain(store.deliveries, now, limit);
    var index := 0;
    assert due[0..] == due;
    while index < |due|
      invariant 0 <= index <= |due|
      invariant Drained(store.deliveries, due[index..], posts, index, now, maxPostAttempts)
             == Drained(old(store.deliveries), due, posts, 0, now, maxPostAttempts)
    {
      assert due[index..][0] == due[index] && due[index..][1..] == due[index + 1..];
      var goesOn := DeliverListed(store, due[index], posts(index), now, maxPostAttempts);
      if !goesOn {
        return false;
      }
      index := index + 1;
    }
    return true;
  }

  /** Beginning a delivery does not change where it is found. */
  lemma BegunIsFound(deliveries: seq<Delivery>, i: nat)
    requires i < |deliveries| && i == IdIndex(deliveries, deliveries[i].id)
    ensures IdIndex(deliveries[i := Begun(deliveries[i])], deliveries[i].id) == i
  {
    var after := deliveries[i := Begun(deliveries[i])];
    assert after[i].id == deliveries[i].id;
    assert forall j :: 0 <= j < i ==> after[j].id != deliveries[i].id;
  }

  // ---------------------------------------------------------------- drains side by side

  datatype InFlight = InFlight(id: string, post: Post)

  /** A drain works through the copies it listed; `current` is the delivery it is waiting for. */
  datatype Drain = Drain(remaining: seq<Delivery>, current: Option<InFlight>)

  /** `begun` and `calls` count, for every delivery, how often it was begun and the Slack calls
      that this caused. */
  datatype Machine = Machine(
    deliveries: seq<Delivery>, drains: map<nat, Drain>, begun: map<string, nat>, calls: map<string, nat>)

  datatype Action =
    | Enqueue(key: string, message: Option<string>, maxAttempts: Option<real>, id: string, now: int)
    | StartDrain(drain: nat, now: int, limit: Option<int>)
    | Begin(drain: nat, post: Post, now: int)
    | Finish(drain: nat, now: int)

  function Count(counts: map<string, nat>, id: string): nat {
    if id in counts then counts[id] else 0
  }

  function SlackCalls(post: Post, maxPostAttempts: nat): nat
    requires maxPostAttempts >= 1
  {
    match post
    case NotAttempted => 0
    case Answered(responses) => |PostFrom(responses, 1, maxPostAttempts)|
    case Threw(made) => if made.None? then 0 else |PostFrom(made.value, 1, maxPostAttempts)|
  }

  lemma CallsBounded(post: Post, maxPostAttempts: nat)
    requires maxPostAttempts >= 1
    ensures SlackCalls(post, maxPostAttempts) <= maxPostAttempts
  {
    match post
    case NotAttempted =>
    case Answered(responses) => PostCalls(responses, 1, maxPostAttempts);
    case Threw(made) =>
      if made.Some? {
        PostCalls(made.value, 1, maxPostAttempts);
      }
  }

  /** The next delivery of a drain: it is begun, or the drain fails because another drain has taken
      it; without a message it fails at once. */
  function BeginStep(m: Machine, drain: nat, post: Post, now: int, maxPostAttempts: nat): Machine
    requires drain in m.drains && m.drains[drain].remaining != [] && maxPostAttempts >= 1
  {
    var listed := m.drains[drain].remaining[0];
    var later := Drain(m.drains[drain].remaining[1..], None);
    var i := IdIndex(m.deliveries, listed.id);
    if i == |m.deliveries| || m.deliveries[i].status != Queued then m.(drains := m.drains - {drain})
    else
      var begun := Begun(m.deliveries[i]);
      var counted := m.(begun := m.begun[listed.id := Count(m.begun, listed.id) + 1]);
      if listed.message.None? then
        counted.(deliveries := m.deliveries[i := FailedOnce(begun, Some(false), None, now)],
                 drains := m.drains[drain := later])
      else
        counted.(deliveries := m.deliveries[i := begun],
                 drains := m.drains[drain := later.(current := Some(InFlight(listed.id, post)))],
                 calls := m.calls[listed.id := Count(m.calls, listed.id) + SlackCalls(post, maxPostAttempts)])
  }

  function FinishStep(m: Machine, drain: nat, now: int, maxPostAttempts: nat): Machine
    requires drain in m.drains && m.drains[drain].current.Some? && maxPostAttempts >= 1
  {
    var flight := m.drains[drain].current.value;
    var i := IdIndex(m.deliveries, flight.id);
    if flight.post.Threw? || i == |m.deliveries| then m.(drains := m.drains - {drain})
    else m.(deliveries := m.deliveries[i := AfterPost(m.deliveries[i], flight.post, now, maxPostAttempts)],
            drains := m.drains[drain := Drain(m.drains[drain].remaining, None)])
  }

  predicate Enabled(m: Machine, action: Action) {
    match action
    case Enqueue(_, _, _, id, _) => forall d :: d in m.deliveries ==> d.id != id
    case StartDrain(drain, _, _) => drain !in m.drains
    case Begin(drain, _, _) => drain in m.drains && m.drains[drain].current.None? && m.drains[drain].remaining != []
    case Finish(drain, _) => drain in m.drains && m.drains[drain].current.Some?
  }

  function Apply(m: Machine, action: Action, maxPostAttempts: nat): Machine
    requires Enabled(m, action) && maxPostAttempts >= 1
  {
    match action
    case Enqueue(key, message, maxAttempts, id, now) =>
      m.(deliveries := Enqueued(m.deliveries, key, message, maxAttempts, id, now))
    case StartDrain(drain, now, limit) =>
      m.(drains := m.drains[drain := Drain(ListDueForDrain(m.deliveries, now, limit), None)])
    case Begin(drain, post, now) => BeginStep(m, drain, post, now, maxPostAttempts)
    case Finish(drain, now) => FinishStep(m, drain, now, maxPostAttempts)
  }

  // ---------------------------------------------------------------- the invariant

  function Find(deliveries: seq<Delivery>, id: string): Option<Delivery> {
    var i := IdIndex(deliveries, id);
    if i < |deliveries| then Some(deliveries[i]) else None
  }

  predicate Posts(m: Machine, drain: nat, id: string) {
    drain in m.drains && m.drains[drain].current.Some? && m.drains[drain].current.value.id == id
  }

  ghost predicate DistinctIds(deliveries: seq<Delivery>) {
    forall i, j :: 0 <= i < j < |deliveries| ==> deliveries[i].id != deliveries[j].id
  }

  ghost predicate Inv(m: Machine) {
    && DistinctIds(m.deliveries)
    && (forall x, id :: Posts(m, x, id) ==>
         Find(m.deliveries, id).Some? && Find(m.deliveries, id).value.status == Delivering)
    && (forall x, y, id :: Posts(m, x, id) && Posts(m, y, id) ==> x == y)
  }

  /** Replacing one delivery by another version of it. */
  lemma FindReplaced(deliveries: seq<Delivery>, i: nat, d: Delivery, id: string)
    requires DistinctIds(deliveries) && i < |deliveries| && d.id == deliveries[i].id
    ensures DistinctIds(deliveries[i := d])
    ensures Find(deliveries[i := d], id) == if id == d.id then Some(d) else Find(deliveries, id)
  {
    var after := deliveries[i := d];
    var j, k := IdIndex(deliveries, id), IdIndex(after, id);
    assert j < |deliveries| ==> after[j].id == id;
    assert k < |deliveries| ==> deliveries[k].id == id;
  }

  lemma FindAdded(deliveries: seq<Delivery>, d: Delivery, id: string)
    requires DistinctIds(deliveries) && forall e :: e in deliveries ==> e.id != d.id
    ensures DistinctIds([d] + deliveries)
    ensures Find([d] + deliveries, id) == if id == d.id then Some(d) else Find(deliveries, id)
  {
    var after := [d] + deliveries;
    var j, k := IdIndex(deliveries, id), IdIndex(after, id);
    assert j < |deliveries| ==> after[j + 1].id == id;
    assert 0 < k < |after| ==> deliveries[k - 1].id == id;
  }

  lemma EnqueueKeepsInv(m: Machine, action: Action)
    requires Inv(m) && action.Enqueue? && Enabled(m, action)
    ensures Inv(Apply(m, action, 1))
    ensures forall id ::
              var before, after := Find(m.deliveries, id), Find(Apply(m, action, 1).deliveries, id);
              && (before.Some? && before.value.key != action.key ==> after == before)
              && (before.Some? ==> after.Some? && after.value.key == before.value.key)
              && (before.Some? && before.value.status == Delivered ==> after.value.status == Delivered)
  {
    var ds, m' := m.deliveries, Apply(m, action, 1);
    forall id
      ensures DistinctIds(m'.deliveries)
      ensures Find(ds, id).Some? ==>
                Find(m'.deliveries, id).Some? && Find(m'.deliveries, id).value.key == Find(ds, id).value.key
      ensures Find(ds, id).Some? && Find(m'.deliveries, id).value != Find(ds, id).value ==>
                Find(ds, id).value.key == action.key
                  && Find(m'.deliveries, id).value.status == RequeuedStatus(Find(ds, id).value.status)
    {
      EnqueuedFind(ds, action, id);
    }
    hide Enqueued, Find;
    assert forall x, id :: Posts(m', x, id) <==> Posts(m, x, id);
  }

  function RequeuedStatus(status: Status): Status {
    if status == Failed then Queued else status
  }

  lemma EnqueuedFind(ds: seq<Delivery>, action: Action, id: string)
    requires DistinctIds(ds) && action.Enqueue? && forall d :: d in ds ==> d.id != action.id
    ensures var after := Enqueued(ds, action.key, action.message, action.maxAttempts, action.id, action.now);
            && DistinctIds(after)
            && (Find(ds, id).Some? ==>
                 && Find(after, id).Some? && Find(after, id).value.key == Find(ds, id).value.key
                 && (Find(after, id) == Find(ds, id)
                     || (Find(ds, id).value.key == action.key
                         && Find(after, id).value.status == RequeuedStatus(Find(ds, id).value.status))))
  {
    var i := KeyIndex(ds, action.key);
    if i < |ds| {
      FindReplaced(ds, i, Requeued(ds[i], action.message, action.maxAttempts, action.now), id);
      FindOwn(ds, i);
    } else {
      FindAdded(ds, Delivery(action.id, action.key, Queued, action.message, 0, NormalizeMaxAttempts(action.maxAttempts),
                             Some(action.now), action.now), id);
    }
  }

  lemma FindOwn(deliveries: seq<Delivery>, i: nat)
    requires DistinctIds(deliveries) && i < |deliveries|
    ensures Find(deliveries, deliveries[i].id) == Some(deliveries[i])
  {
    var j := IdIndex(deliveries, deliveries[i].id);
    assert j <= i;
  }

  lemma BeginKeepsInv(m: Machine, drain: nat, post: Post, now: int, maxPostAttempts: nat)
    requires Inv(m) && drain in m.drains && m.drains[drain].current.None? && m.drains[drain].remaining != []
    requires maxPostAttempts >= 1
    ensures Inv(BeginStep(m, drain, post, now, maxPostAttempts))
  {
    var m' := BeginStep(m, drain, post, now, maxPostAttempts);
    var id := m.drains[drain].remaining[0].id;
    var i := IdIndex(m.deliveries, id);
    assert forall x, y :: x != drain ==> (Posts(m', x, y) <==> Posts(m, x, y));
    if i < |m.deliveries| && m.deliveries[i].status == Queued {
      assert Find(m.deliveries, id).value.status == Queued;
      assert forall x :: !Posts(m, x, id);
      forall y ensures DistinctIds(m'.deliveries)
                       && Find(m'.deliveries, y) == if y == id then Some(m'.deliveries[i]) else Find(m.deliveries, y) {
        FindReplaced(m.deliveries, i, m'.deliveries[i], y);
      }
    }
  }

  lemma FinishKeepsInv(m: Machine, drain: nat, now: int, maxPostAttempts: nat)
    requires Inv(m) && drain in m.drains && m.drains[drain].current.Some? && maxPostAttempts >= 1
    ensures Inv(FinishStep(m, drain, now, maxPostAttempts))
  {
    hide AfterPost;
    var m' := FinishStep(m, drain, now, maxPostAttempts);
    var flight := m.drains[drain].current.value;
    assert Posts(m, drain, flight.id);
    var i := IdIndex(m.deliveries, flight.id);
    assert forall x, y :: x != drain ==> (Posts(m', x, y) <==> Posts(m, x, y));
    assert forall y :: !Posts(m', drain, y);
    forall x, y | Posts(m', x, y) ensures x != drain && y != flight.id {
      assert Posts(m, x, y);
    }
    if !flight.post.Threw? {
      AfterPostKeepsId(m.deliveries[i], flight.post, now, maxPostAttempts);
      forall y ensures DistinctIds(m'.deliveries)
                       && Find(m'.deliveries, y)
                          == if y == flight.id then Some(m'.deliveries[i]) else Find(m.deliveries, y) {
        FindReplaced(m.deliveries, i, m'.deliveries[i], y);
      }
    }
  }

  lemma AfterPostKeepsId(d: Delivery, post: Post, now: int, maxPostAttempts: nat)
    requires !post.Threw? && maxPostAttempts >= 1
    ensures var a := AfterPost(d, post, now, maxPostAttempts);
            && a.id == d.id && a.key == d.key && a.attempts == d.attempts && a.maxAttempts == d.maxAttempts
            && (a.status != Queued ==> a.status == Delivered || a.status == Failed)
            && (a.status == Queued ==> d.attempts < d.maxAttempts)
  {
  }

  lemma StepKeepsInv(m: Machine, action: Action, maxPostAttempts: nat)
    requires Inv(m) && Enabled(m, action) && maxPostAttempts >= 1
    ensures Inv(Apply(m, action, maxPostAttempts))
  {
    match action
    case Enqueue(_, _, _, _, _) => EnqueueKeepsInv(m, action);
    case StartDrain(drain, _, _) =>
      assert forall x, id :: Posts(Apply(m, action, maxPostAttempts), x, id) <==> Posts(m, x, id);
    case Begin(drain, post, now) => BeginKeepsInv(m, drain, post, now, maxPostAttempts);
    case Finish(drain, now) => FinishKeepsInv(m, drain, now, maxPostAttempts);
  }

  // ---------------------------------------------------------------- how often a delivery is begun

  /** How many more times a delivery can be begun before somebody enqueues its key again. */
  function Allowance(d: Delivery): nat {
    match d.status
    case Queued => if d.attempts < d.maxAttempts then d.maxAttempts - d.attempts else 1
    case Delivering => if d.attempts < d.maxAttempts then d.maxAttempts - d.attempts else 0
    case _ => 0
  }

  predicate Enqueues(action: Action, key: string) {
    action.Enqueue? && action.key == key
  }

  /** One step, seen from one delivery: every beginning costs one of its allowance and causes at
      most `maxPostAttempts` calls. */
  lemma StepSpends(m: Machine, action: Action, maxPostAttempts: nat, d: Delivery)
    requires Inv(m) && Enabled(m, action) && maxPostAttempts >= 1 && Find(m.deliveries, d.id) == Some(d)
    ensures var m' := Apply(m, action, maxPostAttempts);
            var after := Find(m'.deliveries, d.id);
            var begun := Count(m'.begun, d.id) - Count(m.begun, d.id);
            var calls := Count(m'.calls, d.id) - Count(m.calls, d.id);
            && after.Some? && after.value.key == d.key
            && 0 <= begun <= 1 && (begun == 0 ==> calls == 0) && 0 <= calls <= maxPostAttempts
            && (d.status == Delivered ==> after.value.status == Delivered && begun == 0)
            && (!Enqueues(action, d.key) ==> begun + Allowance(after.value) <= Allowance(d))
  {
    match action
    case Enqueue(_, _, _, _, _) => EnqueueKeepsInv(m, action);
    case StartDrain(_, _, _) =>
    case Begin(drain, post, now) => BeginSpends(m, drain, post, now, maxPostAttempts, d);
    case Finish(drain, now) => FinishSpends(m, drain, now, maxPostAttempts, d);
  }

  lemma BeginSpends(m: Machine, drain: nat, post: Post, now: int, maxPostAttempts: nat, d: Delivery)
    requires Inv(m) && drain in m.drains && m.drains[drain].remaining != [] && maxPostAttempts >= 1
    requires Find(m.deliveries, d.id) == Some(d)
    ensures var m' := BeginStep(m, drain, post, now, maxPostAttempts);
            var after := Find(m'.deliveries, d.id);
            var begun := Count(m'.begun, d.id) - Count(m.begun, d.id);
            var calls := Count(m'.calls, d.id) - Count(m.calls, d.id);
            && after.Some? && after.value.key == d.key
            && 0 <= begun <= 1 && (begun == 0 ==> calls == 0) && 0 <= calls <= maxPostAttempts
            && (d.status == Delivered ==> after.value.status == Delivered && begun == 0)
            && begun + Allowance(after.value) <= Allowance(d)
  {
    var m' := BeginStep(m, drain, post, now, maxPostAttempts);
    var id := m.drains[drain].remaining[0].id;
    var i := IdIndex(m.deliveries, id);
    if i < |m.deliveries| && m.deliveries[i].status == Queued {
      FindReplaced(m.deliveries, i, m'.deliveries[i], d.id);
      CallsBounded(post, maxPostAttempts);
    }
  }

  lemma FinishSpends(m: Machine, drain: nat, now: int, maxPostAttempts: nat, d: Delivery)
    requires Inv(m) && drain in m.drains && m.drains[drain].current.Some? && maxPostAttempts >= 1
    requires Find(m.deliveries, d.id) == Some(d)
    ensures var m' := FinishStep(m, drain, now, maxPostAttempts);
            var after := Find(m'.deliveries, d.id);
            && m'.begun == m.begun && m'.calls == m.calls && after.Some? && after.value.key == d.key
            && (d.status == Delivered ==> after.value.status == Delivered)
            && Allowance(after.value) <= Allowance(d)
  {
    hide AfterPost;
    var m' := FinishStep(m, drain, now, maxPostAttempts);
    var flight := m.drains[drain].current.value;
    assert Posts(m, drain, flight.id);
    var i := IdIndex(m.deliveries, flight.id);
    if !flight.post.Threw? {
      AfterPostKeepsId(m.deliveries[i], flight.post, now, maxPostAttempts);
      FindReplaced(m.deliveries, i, m'.deliveries[i], d.id);
    }
  }

  // ---------------------------------------------------------------- over every run

  ghost predicate ValidRun(m: Machine, actions: seq<Action>, maxPostAttempts: nat)
    requires maxPostAttempts >= 1
    decreases actions
  {
    actions != [] ==>
      Enabled(m, actions[0]) && ValidRun(Apply(m, actions[0], maxPostAttempts), actions[1..], maxPostAttempts)
  }

  function RunFrom(m: Machine, actions: seq<Action>, maxPostAttempts: nat): Machine
    requires maxPostAttempts >= 1 && ValidRun(m, actions, maxPostAttempts)
    decreases actions
  {
    if actions == [] then m else RunFrom(Apply(m, actions[0], maxPostAttempts), actions[1..], maxPostAttempts)
  }

  const EMPTY := Machine([], map[], map[], map[])

  /** In every interleaving a delivery is posted by at most one drain at a time, and only while its
      status is `delivering`. */
  lemma {:induction false} AtMostOneInFlight(m: Machine, actions: seq<Action>, maxPostAttempts: nat)
    requires maxPostAttempts >= 1 && Inv(m) && ValidRun(m, actions, maxPostAttempts)
    ensures Inv(RunFrom(m, actions, maxPostAttempts))
    decreases actions
  {
    hide Inv, Apply, Enabled;
    if actions != [] {
      StepKeepsInv(m, actions[0], maxPostAttempts);
      AtMostOneInFlight(Apply(m, actions[0], maxPostAttempts), actions[1..], maxPostAttempts);
    }
  }

  /** `delivered` is final: the delivery stays delivered and is never begun or posted again, even
      if its key is enqueued again. */
  lemma {:induction false} DeliveredIsFinal(m: Machine, actions: seq<Action>, maxPostAttempts: nat, id: string)
    requires maxPostAttempts >= 1 && Inv(m) && ValidRun(m, actions, maxPostAttempts)
    requires Find(m.deliveries, id).Some? && Find(m.deliveries, id).value.status == Delivered
    ensures var end := RunFrom(m, actions, maxPostAttempts);
            && Find(end.deliveries, id).Some? && Find(end.deliveries, id).value.status == Delivered
            && Count(end.begun, id) == Count(m.begun, id) && Count(end.calls, id) == Count(m.calls, id)
    decreases actions
  {
    hide Inv, Apply, Enabled;
    if actions != [] {
      StepSpends(m, actions[0], maxPostAttempts, Find(m.deliveries, id).value);
      StepKeepsInv(m, actions[0], maxPostAttempts);
      DeliveredIsFinal(Apply(m, actions[0], maxPostAttempts), actions[1..], maxPostAttempts, id);
    }
  }

  /** Between two enqueues of its key a delivery is begun no more often than its allowance, which is
      max(1, maxAttempts - attempts) for a queued one, with at most `maxPostAttempts` calls each time. */
  lemma {:induction false} BeginningsBounded(m: Machine, actions: seq<Action>, maxPostAttempts: nat, d: Delivery)
    requires maxPostAttempts >= 1 && Inv(m) && ValidRun(m, actions, maxPostAttempts)
    requires Find(m.deliveries, d.id) == Some(d) && forall a :: a in actions ==> !Enqueues(a, d.key)
    ensures var end := RunFrom(m, actions, maxPostAttempts);
            var begun := Count(end.begun, d.id) - Count(m.begun, d.id);
            var calls := Count(end.calls, d.id) - Count(m.calls, d.id);
            && Find(end.deliveries, d.id).Some?
            && 0 <= begun && begun + Allowance(Find(end.deliveries, d.id).value) <= Allowance(d)
            && 0 <= calls <= begun * maxPostAttempts
    decreases actions
  {
    hide Inv, Apply, Enabled, Allowance;
    if actions != [] {
      var next := Apply(m, actions[0], maxPostAttempts);
      StepSpends(m, actions[0], maxPostAttempts, d);
      StepKeepsInv(m, actions[0], maxPostAttempts);
      var rest := actions[1..];
      assert forall a :: a in rest ==> a in actions;
      BeginningsBounded(next, rest, maxPostAttempts, Find(next.deliveries, d.id).value);
      var end := RunFrom(m, actions, maxPostAttempts);
      var now := Count(next.begun, d.id) - Count(m.begun, d.id);
      var later := Count(end.begun, d.id) - Count(next.begun, d.id);
      assert (now + later) * maxPostAttempts == now * maxPostAttempts + later * maxPostAttempts;
    }
  }

  // ---------------------------------------------------------------- attempts against maxAttempts

  /** No more attempts than the limit, and room for another one while queued. */
  predicate WithinLimit(d: Delivery) {
    d.attempts <= d.maxAttempts && (d.status == Queued ==> d.attempts < d.maxAttempts)
  }

  /** What a second enqueue must bring: it overwrites the limit and keeps the attempts, and a failed
      delivery is queued again. */
  predicate LeavesRoom(d: Delivery, maxAttempts: Option<real>) {
    if d.status == Queued || d.status == Failed then d.attempts < NormalizeMaxAttempts(maxAttempts)
    else d.attempts <= NormalizeMaxAttempts(maxAttempts)
  }

  lemma RequeuedExactly(d: Delivery, message: Option<string>, maxAttempts: Option<real>, now: int)
    ensures WithinLimit(Requeued(d, message, maxAttempts, now)) <==> LeavesRoom(d, maxAttempts)
  {
  }

  ghost predicate AllWithin(deliveries: seq<Delivery>) {
    forall d :: d in deliveries ==> WithinLimit(d)
  }

  lemma ReplacedWithin(deliveries: seq<Delivery>, i: nat, d: Delivery)
    requires AllWithin(deliveries) && i < |deliveries|
    ensures AllWithin(deliveries[i := d]) <==> WithinLimit(d)
  {
    assert deliveries[i := d][i] == d;
  }

  /** An enqueue of a known key brings a limit that leaves room for the delivery it finds. */
  predicate EnqueueFits(m: Machine, action: Action) {
    action.Enqueue? ==>
      var i := KeyIndex(m.deliveries, action.key);
      i < |m.deliveries| ==> LeavesRoom(m.deliveries[i], action.maxAttempts)
  }

  /** Only an enqueue can take a delivery over its limit. */
  lemma StepStaysWithin(m: Machine, action: Action, maxPostAttempts: nat)
    requires AllWithin(m.deliveries) && Enabled(m, action) && maxPostAttempts >= 1
    ensures AllWithin(Apply(m, action, maxPostAttempts).deliveries) <==> EnqueueFits(m, action)
  {
    hide AllWithin;
    match action
    case Enqueue(key, message, maxAttempts, id, now) => EnqueueStaysWithin(m.deliveries, action);
    case StartDrain(_, _, _) =>
    case Begin(drain, post, now) => BeginStaysWithin(m, drain, post, now, maxPostAttempts);
    case Finish(drain, now) => FinishStaysWithin(m, drain, now, maxPostAttempts);
  }

  lemma EnqueueStaysWithin(ds: seq<Delivery>, action: Action)
    requires AllWithin(ds) && action.Enqueue?
    ensures var i := KeyIndex(ds, action.key);
            AllWithin(Enqueued(ds, action.key, action.message, action.maxAttempts, action.id, action.now)) <==>
            (i < |ds| ==> LeavesRoom(ds[i], action.maxAttempts))
  {
    hide Requeued;
    var i := KeyIndex(ds, action.key);
    if i < |ds| {
      RequeuedExactly(ds[i], action.message, action.maxAttempts, action.now);
      ReplacedWithin(ds, i, Requeued(ds[i], action.message, action.maxAttempts, action.now));
    }
  }

  lemma BeginStaysWithin(m: Machine, drain: nat, post: Post, now: int, maxPostAttempts: nat)
    requires AllWithin(m.deliveries) && drain in m.drains && m.drains[drain].remaining != [] && maxPostAttempts >= 1
    ensures AllWithin(BeginStep(m, drain, post, now, maxPostAttempts).deliveries)
  {
    var i := IdIndex(m.deliveries, m.drains[drain].remaining[0].id);
    if i < |m.deliveries| && m.deliveries[i].status == Queued {
      assert m.deliveries[i] in m.deliveries;
      ReplacedWithin(m.deliveries, i, Begun(m.deliveries[i]));
      ReplacedWithin(m.deliveries, i, FailedOnce(Begun(m.deliveries[i]), Some(false), None, now));
    }
  }

  lemma FinishStaysWithin(m: Machine, drain: nat, now: int, maxPostAttempts: nat)
    requires AllWithin(m.deliveries) && drain in m.drains && m.drains[drain].current.Some? && maxPostAttempts >= 1
    ensures AllWithin(FinishStep(m, drain, now, maxPostAttempts).deliveries)
  {
    hide AfterPost;
    var flight := m.drains[drain].current.value;
    var i := IdIndex(m.deliveries, flight.id);
    if !flight.post.Threw? && i < |m.deliveries| {
      assert m.deliveries[i] in m.deliveries;
      AfterPostKeepsId(m.deliveries[i], flight.post, now, maxPostAttempts);
      ReplacedWithin(m.deliveries, i, AfterPost(m.deliveries[i], flight.post, now, maxPostAttempts));
    }
  }

  /** Every delivery is within its limit at the start and after each action. */
  ghost predicate StaysWithin(m: Machine, actions: seq<Action>, maxPostAttempts: nat)
    requires maxPostAttempts >= 1 && ValidRun(m, actions, maxPostAttempts)
    decreases actions
  {
    && AllWithin(m.deliveries)
    && (actions != [] ==> StaysWithin(Apply(m, actions[0], maxPostAttempts), actions[1..], maxPostAttempts))
  }

  /** Every enqueue fits the delivery that its key has at that moment. */
  ghost predicate EnqueuesFit(m: Machine, actions: seq<Action>, maxPostAttempts: nat)
    requires maxPostAttempts >= 1 && ValidRun(m, actions, maxPostAttempts)
    decreases actions
  {
    actions != [] ==>
      && EnqueueFits(m, actions[0])
      && EnqueuesFit(Apply(m, actions[0], maxPostAttempts), actions[1..], maxPostAttempts)
  }

  /** So `attempts <= maxAttempts` is no invariant. In any interleaving that starts within the limits,
      all deliveries stay within theirs exactly when every enqueue of a known key brings a limit above
      the attempts made, or not below them while the delivery is in flight or delivered. */
  lemma {:induction false} StaysWithinExactly(m: Machine, actions: seq<Action>, maxPostAttempts: nat)
    requires maxPostAttempts >= 1 && AllWithin(m.deliveries) && ValidRun(m, actions, maxPostAttempts)
    ensures StaysWithin(m, actions, maxPostAttempts) <==> EnqueuesFit(m, actions, maxPostAttempts)
    decreases actions
  {
    hide AllWithin, Apply, Enabled, EnqueueFits;
    if actions != [] {
      var next := Apply(m, actions[0], maxPostAttempts);
      StepStaysWithin(m, actions[0], maxPostAttempts);
      if AllWithin(next.deliveries) {
        StaysWithinExactly(next, actions[1..], maxPostAttempts);
      }
    }
  }

  const FIRST := Delivery("a", "k", Queued, Some("hi"), 0, 1, Some(0), 0)
  const FAILED := FIRST.(status := Failed, attempts := 1, nextAttemptAt := None)
  const AGAIN := FAILED.(status := Queued, nextAttemptAt := Some(9))
  const AFTER_ONE := Machine([FAILED], map[1 := Drain([], None)], map["a" := 1], map["a" := 0])

  function OneDrain(drain: nat, now: int): seq<Action> {
    [StartDrain(drain, now, None), Begin(drain, NotAttempted, now), Finish(drain, now)]
  }

  const ONCE := Enqueue("k", Some("hi"), Some(1.0), "a", 0)
  const SECOND := Enqueue("k", Some("hi"), Some(1.0), "b", 9)

  /** Enqueue, drain, enqueue, drain. */
  function TwiceRun(): seq<Action> {
    [ONCE] + (OneDrain(1, 0) + ([SECOND] + OneDrain(2, 9)))
  }

  /** In that run a delivery limited to one attempt makes two. */
  lemma AttemptsExceedLimit()
    ensures Inv(EMPTY) && ValidRun(EMPTY, TwiceRun(), 3)
    ensures Find(RunFrom(EMPTY, TwiceRun(), 3).deliveries, "a") == Some(FAILED.(attempts := 2))
            && FAILED.maxAttempts == 1
  {
    hide Apply, ValidRun, RunFrom, Inv, OneDrain, Find, Enabled;
    var queued := Machine([FIRST], map[], map[], map[]);
    FirstEnqueue();
    FirstDrain();
    Requeue();
    SecondDrain();
    Chain(AFTER_ONE, SECOND, OneDrain(2, 9), 3);
    Then(queued, OneDrain(1, 0), [SECOND] + OneDrain(2, 9));
    Chain(EMPTY, ONCE, OneDrain(1, 0) + ([SECOND] + OneDrain(2, 9)), 3);
  }

  lemma FirstEnqueue()
    ensures Inv(EMPTY) && Enabled(EMPTY, ONCE) && Apply(EMPTY, ONCE, 3) == Machine([FIRST], map[], map[], map[])
  {
  }

  lemma Requeue()
    ensures Enabled(AFTER_ONE, SECOND) && Apply(AFTER_ONE, SECOND, 3) == AFTER_ONE.(deliveries := [AGAIN])
  {
  }

  lemma FirstDrain()
    ensures var m := Machine([FIRST], map[], map[], map[]);
            ValidRun(m, OneDrain(1, 0), 3) && RunFrom(m, OneDrain(1, 0), 3) == AFTER_ONE
  {
    var m := Machine([FIRST], map[], map[], map[]);
    var m1 := m.(drains := map[1 := Drain([FIRST], None)]);
    var m2 := Machine([Begun(FIRST)], map[1 := Drain([], Some(InFlight("a", NotAttempted)))], map["a" := 1],
                      map["a" := 0]);
    Lone(FIRST);
    assert Apply(m, StartDrain(1, 0, None), 3) == m1;
    var begun := Apply(m1, Begin(1, NotAttempted, 0), 3);
    assert m1.drains[1].remaining[1..] == [] && IdIndex(m1.deliveries, "a") == 0;
    assert begun.deliveries == m2.deliveries && begun.begun == m2.begun && begun.calls == m2.calls;
    assert begun.drains[1] == m2.drains[1] && begun.drains == m2.drains;
    assert Apply(m2, Finish(1, 0), 3) == AFTER_ONE;
    Chain(m2, Finish(1, 0), [], 3);
    Chain(m1, Begin(1, NotAttempted, 0), [Finish(1, 0)], 3);
    Chain(m, StartDrain(1, 0, None), [Begin(1, NotAttempted, 0), Finish(1, 0)], 3);
  }

  const LISTED := AFTER_ONE.(deliveries := [AGAIN], drains := AFTER_ONE.drains[2 := Drain([AGAIN], None)])
  const POSTING := Machine([Begun(AGAIN)], AFTER_ONE.drains[2 := Drain([], Some(InFlight("a", NotAttempted)))],
                           map["a" := 2], map["a" := 0])

  lemma SecondBegin()
    ensures Enabled(LISTED, Begin(2, NotAttempted, 9)) && Apply(LISTED, Begin(2, NotAttempted, 9), 3) == POSTING
  {
    var begun := Apply(LISTED, Begin(2, NotAttempted, 9), 3);
    assert LISTED.drains[2].remaining[1..] == [] && IdIndex(LISTED.deliveries, "a") == 0;
    assert begun.deliveries == POSTING.deliveries && begun.begun == POSTING.begun && begun.calls == POSTING.calls;
    assert begun.drains[2] == POSTING.drains[2] && begun.drains == POSTING.drains;
  }

  lemma SecondFinish()
    ensures Enabled(POSTING, Finish(2, 9))
    ensures Find(Apply(POSTING, Finish(2, 9), 3).deliveries, "a") == Some(FAILED.(attempts := 2))
  {
    assert Apply(POSTING, Finish(2, 9), 3).deliveries == [FAILED.(attempts := 2)];
  }

  lemma SecondDrain()
    ensures var m := AFTER_ONE.(deliveries := [AGAIN]);
            && ValidRun(m, OneDrain(2, 9), 3)
            && var end := RunFrom(m, OneDrain(2, 9), 3);
               Find(end.deliveries, "a") == Some(FAILED.(attempts := 2))
  {
    var m := AFTER_ONE.(deliveries := [AGAIN]);
    Lone(AGAIN);
    assert Enabled(m, StartDrain(2, 9, None)) && Apply(m, StartDrain(2, 9, None), 3) == LISTED;
    hide Apply, Enabled;
    SecondBegin();
    SecondFinish();
    Chain(POSTING, Finish(2, 9), [], 3);
    Chain(LISTED, Begin(2, NotAttempted, 9), [Finish(2, 9)], 3);
    Chain(m, StartDrain(2, 9, None), [Begin(2, NotAttempted, 9), Finish(2, 9)], 3);
  }

  lemma Lone(d: Delivery)
    requires d.status == Queued
    ensures ListDueForDrain([d], DueAt(d), None) == [d]
  {
    assert [d][1..] == [];
    assert Select([d], IsDue(DueAt(d))) == [d];
    assert Sorting.Sort([d], EARLIER) == [d];
  }

  lemma {:induction false} Then(m: Machine, a: seq<Action>, b: seq<Action>)
    requires ValidRun(m, a, 3) && ValidRun(RunFrom(m, a, 3), b, 3)
    ensures ValidRun(m, a + b, 3) && RunFrom(m, a + b, 3) == RunFrom(RunFrom(m, a, 3), b, 3)
    decreases a
  {
    hide Apply, Enabled;
    if a == [] {
      assert a + b == b;
    } else {
      var next := Apply(m, a[0], 3);
      Then(next, a[1..], b);
      assert a + b == [a[0]] + (a[1..] + b);
      Chain(m, a[0], a[1..] + b, 3);
    }
  }

  // ---------------------------------------------------------------- one drain is a run

  /** A drain that nobody interrupts is a run of the machine, so everything above holds of it. */
  lemma {:induction false} DrainIsRun(m: Machine, drain: nat, posts: nat -> Post, index: nat, now: int,
                                      maxPostAttempts: nat)
    returns (actions: seq<Action>)
    requires maxPostAttempts >= 1 && drain in m.drains && m.drains[drain].current.None?
    ensures ValidRun(m, actions, maxPostAttempts)
    ensures RunFrom(m, actions, maxPostAttempts).deliveries
         == Drained(m.deliveries, m.drains[drain].remaining, posts, index, now, maxPostAttempts).0
    decreases m.drains[drain].remaining
  {
    var due := m.drains[drain].remaining;
    if due == [] {
      actions := [];
    } else {
      var post := posts(index);
      var begun := BeginStep(m, drain, post, now, maxPostAttempts);
      var begin := Begin(drain, post, now);
      var (next, goesOn) := WorkOn(m.deliveries, due[0], post, now, maxPostAttempts);
      if drain !in begun.drains {
        actions := [begin];
        Chain(m, begin, [], maxPostAttempts);
      } else if begun.drains[drain].current.None? {
        var rest := DrainIsRun(begun, drain, posts, index + 1, now, maxPostAttempts);
        Chain(m, begin, rest, maxPostAttempts);
        actions := [begin] + rest;
      } else {
        var finish := Finish(drain, now);
        var finished := FinishStep(begun, drain, now, maxPostAttempts);
        var i := IdIndex(m.deliveries, due[0].id);
        BegunIsFound(m.deliveries, i);
        if goesOn {
          UpdatedTwice(m.deliveries, i, Begun(m.deliveries[i]),
                       AfterPost(Begun(m.deliveries[i]), post, now, maxPostAttempts));
        }
        var rest := [];
        if goesOn {
          rest := DrainIsRun(finished, drain, posts, index + 1, now, maxPostAttempts);
        }
        Chain(begun, finish, rest, maxPostAttempts);
        Chain(m, begin, [finish] + rest, maxPostAttempts);
        actions := [begin] + ([finish] + rest);
      }
    }
  }

  lemma Chain(m: Machine, action: Action, rest: seq<Action>, maxPostAttempts: nat)
    requires maxPostAttempts >= 1
    requires Enabled(m, action) && ValidRun(Apply(m, action, maxPostAttempts), rest, maxPostAttempts)
    ensures ValidRun(m, [action] + rest, maxPostAttempts)
    ensures RunFrom(m, [action] + rest, maxPostAttempts)
         == RunFrom(Apply(m, action, maxPostAttempts), rest, maxPostAttempts)
  {
    assert ([action] + rest)[1..] == rest;
  }
}
