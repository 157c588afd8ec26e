/** Deduplication of keyed Slack and GitHub deliveries, with rollback when saving fails. */
module Ingress {
  import opened Wrappers
  import opened Lists

  // ---------------------------------------------------------------- the store

  datatype Status = Processed | Ignored

  datatype Response = Response(bodyHash: Option<string>, text: string)

  datatype Delivery = Delivery(key: string, status: Status, response: Response)

  function KeyIndex(deliveries: seq<Delivery>, key: string): (i: nat)
    ensures i <= |deliveries| && (i < |deliveries| ==> deliveries[i].key == key)
    ensures forall j :: 0 <= j < i ==> deliveries[j].key != key
  {
    IndexOf(deliveries, (d: Delivery) => d.key == key)
  }

  function Find(deliveries: seq<Delivery>, key: string): Option<Delivery> {
    var i := KeyIndex(deliveries, key);
    if i < |deliveries| then Some(deliveries[i]) else None
  }

  function Recorded(deliveries: seq<Delivery>, d: Delivery): seq<Delivery> {
    var i := KeyIndex(deliveries, d.key);
    if i < |deliveries| then deliveries[i := d] else [d] + deliveries
  }

  function OtherKeys(key: string): Delivery -> bool {
    (d: Delivery) => d.key != key
  }

  function Removed(deliveries: seq<Delivery>, key: string): seq<Delivery> {
    Select(deliveries, OtherKeys(key))
  }

  function RemovedAll(deliveries: seq<Delivery>, keys: seq<string>): seq<Delivery>
    decreases keys
  {
    if keys == [] then deliveries else RemovedAll(Removed(deliveries, keys[0]), keys[1..])
  }

  class IngressStore {
    var deliveries: seq<Delivery>

    constructor ()
      ensures deliveries == []
    {
      deliveries := [];
    }

    method FindIngressDelivery(key: string) returns (found: Option<Delivery>)
      ensures found == Find(deliveries, key)
    {
      var i := KeyIndex(deliveries, key);
      found := if i < |deliveries| then Some(deliveries[i]) else None;
    }

    method RecordIngressDelivery(key: string, status: Status, response: Response)
      modifies this
      ensures deliveries == Recorded(old(deliveries), Delivery(key, status, response))
    {
      var i := KeyIndex(deliveries, key);
      if i < |deliveries| {
        var existing := deliveries[i];
        deliveries := deliveries[i := existing.(status := status, response := response)];
      } else {
        deliveries := [Delivery(key, status, response)] + deliveries;
      }
    }

    method RemoveIngressDelivery(key: string) returns (removed: bool)
      modifies this
      ensures deliveries == Removed(old(deliveries), key) && removed == (|deliveries| != |old(deliveries)|)
    {
      var before := |deliveries|;
      deliveries := Select(deliveries, OtherKeys(key));
      removed := |deliveries| != before;
    }
  }

  // ---------------------------------------------------------------- the handlers

  const SLACK_PREFIX := "slack:"
  const DELIVERY_PREFIX := "github:webhook:"
  const BODY_PREFIX := "github:webhook-body:"

  function SlackKey(rest: string): string {
    SLACK_PREFIX + rest
  }

  function DeliveryKey(eventName: string, deliveryId: string): string {
    DELIVERY_PREFIX + eventName + ":" + deliveryId
  }

  function BodyKey(bodyHash: string): string {
    BODY_PREFIX + bodyHash
  }

  /** What the code between the duplicate check and the record does: refuse or throw, or go on to
      record, having run the event's effect or only acknowledged it. */
  datatype Work = Refuses | Acknowledges(text: string) | Processes(text: string)

  datatype Answer = Duplicate(response: Response) | Conflict | Refused | Accepted

  function SlackAnswer(deliveries: seq<Delivery>, key: string, work: Work): Answer {
    var existing := Find(deliveries, key);
    if existing.Some? then Duplicate(existing.value.response)
    else if work.Refuses? then Refused
    else Accepted
  }

  function GitHubAnswer(deliveries: seq<Delivery>, deliveryKey: string, bodyHash: string, work: Work): Answer {
    var existing := Find(deliveries, deliveryKey);
    var existingBody := Find(deliveries, BodyKey(bodyHash));
    if existing.Some? then
      if existing.value.response.bodyHash != Some(bodyHash) then Conflict else Duplicate(existing.value.response)
    else if existingBody.Some? then Duplicate(existingBody.value.response)
    else if work.Refuses? then Refused
    else Accepted
  }

  function StatusOf(work: Work): Status {
    if work.Processes? then Processed else Ignored
  }

  /** The part of the Slack handler that runs before it waits for the flush. */
  method HandleSlack(store: IngressStore, key: string, work: Work) returns (answer: Answer)
    modifies store
    ensures answer == SlackAnswer(old(store.deliveries), key, work)
    ensures store.deliveries == if answer == Accepted
              then Recorded(old(store.deliveries), Delivery(key, StatusOf(work), Response(None, work.text)))
              else old(store.deliveries)
  {
    var existing := store.FindIngressDelivery(key);
    if existing.Some? {
      return Duplicate(existing.value.response);
    }
    if work.Refuses? {
      return Refused;
    }
    store.RecordIngressDelivery(key, StatusOf(work), Response(None, work.text));
    return Accepted;
  }

  /** The part of the GitHub webhook handler that runs before it waits for the flush. */
  method HandleGitHub(store: IngressStore, deliveryKey: string, bodyHash: string, work: Work) returns (answer: Answer)
    modifies store
    ensures answer == GitHubAnswer(old(store.deliveries), deliveryKey, bodyHash, work)
    ensures store.deliveries == if answer == Accepted
              then var response := Response(Some(bodyHash), work.text);
                   Recorded(Recorded(old(store.deliveries), Delivery(deliveryKey, StatusOf(work), response)),
                            Delivery(BodyKey(bodyHash), StatusOf(work), response))
              else old(store.deliveries)
  {
    var existing := store.FindIngressDelivery(deliveryKey);
    if existing.Some? {
      if existing.value.response.bodyHash != Some(bodyHash) {
        return Conflict;
      }
      return Duplicate(existing.value.response);
    }
    var existingBody := store.FindIngressDelivery(BodyKey(bodyHash));
    if existingBody.Some? {
      return Duplicate(existingBody.value.response);
    }
    if work.Refuses? {
      return Refused;
    }
    var response := Response(Some(bodyHash), work.text);
    store.RecordIngressDelivery(deliveryKey, StatusOf(work), response);
    store.RecordIngressDelivery(BodyKey(bodyHash), StatusOf(work), response);
    return Accepted;
  }

  /** What follows a flush that failed: every key of the request is removed again. */
  method RollBack(store: IngressStore, keys: seq<string>)
    modifies store
    ensures store.deliveries == RemovedAll(old(store.deliveries), keys)
  {
    var i := 0;
    assert keys[0..] == keys;
    while i < |keys|
      invariant 0 <= i <= |keys|
      invariant RemovedAll(store.deliveries, keys[i..]) == RemovedAll(old(store.deliveries), keys)
    {
      assert keys[i..][0] == keys[i] && keys[i..][1..] == keys[i + 1..];
      var _ := store.RemoveIngressDelivery(keys[i]);
      i := i + 1;
    }
  }

  // ---------------------------------------------------------------- interleavings

  /** `pending` holds the keys of requests that wait for their flush. The counters say, for every
      key, how often a request that carried it was accepted, how often its effect ran, how often it was
      only acknowledged, and how often its flush failed. */
  datatype Machine = Machine(
    deliveries: seq<Delivery>, pending: map<nat, seq<string>>,
    accepted: map<string, nat>, effects: map<string, nat>, acknowledged: map<string, nat>,
    failedFlushes: map<string, nat>)

  datatype Action =
    | Slack(request: nat, rest: string, work: Work)
    | GitHub(request: nat, eventName: string, deliveryId: string, bodyHash: string, work: Work)
    | FlushEnds(request: nat, ok: bool)

  function Count(counts: map<string, nat>, key: string): nat {
    if key in counts then counts[key] else 0
  }

  function Add(counts: map<string, nat>, keys: seq<string>): map<string, nat>
    decreases keys
  {
    if keys == [] then counts else Add(counts[keys[0] := Count(counts, keys[0]) + 1], keys[1..])
  }

  function Keys(action: Action): seq<string> {
    match action
    case Slack(_, rest, _) => [SlackKey(rest)]
    case GitHub(_, eventName, deliveryId, bodyHash, _) => [DeliveryKey(eventName, deliveryId), BodyKey(bodyHash)]
    case FlushEnds(_, _) => []
  }

  function AnswerTo(deliveries: seq<Delivery>, action: Action): Answer
    requires !action.FlushEnds?
  {
    match action
    case Slack(_, rest, work) => SlackAnswer(deliveries, SlackKey(rest), work)
    case GitHub(_, eventName, deliveryId, bodyHash, work) =>
      GitHubAnswer(deliveries, DeliveryKey(eventName, deliveryId), bodyHash, work)
  }

  function Entries(action: Action): seq<Delivery>
    requires !action.FlushEnds? && !action.work.Refuses?
  {
    match action
    case Slack(_, rest, work) => [Delivery(SlackKey(rest), StatusOf(work), Response(None, work.text))]
    case GitHub(_, eventName, deliveryId, bodyHash, work) =>
      var response := Response(Some(bodyHash), work.text);
      [Delivery(DeliveryKey(eventName, deliveryId), StatusOf(work), response),
       Delivery(BodyKey(bodyHash), StatusOf(work), response)]
  }

  function RecordedAll(deliveries: seq<Delivery>, entries: seq<Delivery>): seq<Delivery>
    decreases entries
  {
    if entries == [] then deliveries else RecordedAll(Recorded(deliveries, entries[0]), entries[1..])
  }

  predicate Enabled(m: Machine, action: Action) {
    if action.FlushEnds? then action.request in m.pending else action.request !in m.pending
  }

  function Apply(m: Machine, action: Action): Machine
    requires Enabled(m, action)
  {
    if action.FlushEnds? then
      var keys := m.pending[action.request];
      if action.ok then m.(pending := m.pending - {action.request})
      else m.(deliveries := RemovedAll(m.deliveries, keys), pending := m.pending - {action.request},
              failedFlushes := Add(m.failedFlushes, keys))
    else if AnswerTo(m.deliveries, action) != Accepted then m
    else
      m.(deliveries := RecordedAll(m.deliveries, Entries(action)), pending := m.pending[action.request := Keys(action)],
         accepted := Add(m.accepted, Keys(action)),
         effects := if action.work.Processes? then Add(m.effects, Keys(action)) else m.effects,
         acknowledged := if action.work.Processes? then m.acknowledged else Add(m.acknowledged, Keys(action)))
  }

  // ---------------------------------------------------------------- presence of keys

  predicate Has(deliveries: seq<Delivery>, key: string) {
    Find(deliveries, key).Some?
  }

  lemma HasMember(deliveries: seq<Delivery>, key: string)
    ensures Has(deliveries, key) <==> exists d :: d in deliveries && d.key == key
  {
  }

  lemma RecordedHas(deliveries: seq<Delivery>, d: Delivery, key: string)
    ensures Has(Recorded(deliveries, d), key) <==> key == d.key || Has(deliveries, key)
  {
    var i := KeyIndex(deliveries, d.key);
    var after := Recorded(deliveries, d);
    HasMember(deliveries, key);
    HasMember(after, key);
    if i < |deliveries| {
      assert after[i] == d;
      if e :| e in deliveries && e.key == key && key != d.key {
        var j :| 0 <= j < |deliveries| && deliveries[j] == e;
        assert after[j] == e;
      }
    } else {
      assert after[0] == d;
      if e :| e in deliveries && e.key == key {
        assert e in after;
      }
    }
  }

  lemma {:induction false} RecordedAllHas(deliveries: seq<Delivery>, entries: seq<Delivery>, key: string)
    ensures Has(RecordedAll(deliveries, entries), key) <==>
              Has(deliveries, key) || exists e :: e in entries && e.key == key
    decreases entries
  {
    hide Has, Recorded;
    if entries != [] {
      RecordedHas(deliveries, entries[0], key);
      RecordedAllHas(Recorded(deliveries, entries[0]), entries[1..], key);
    }
  }

  lemma {:induction false} RemovedAllHas(deliveries: seq<Delivery>, keys: seq<string>, key: string)
    ensures Has(RemovedAll(deliveries, keys), key) <==> Has(deliveries, key) && key !in keys
    decreases keys
  {
    if keys != [] {
      SelectMembers(deliveries, OtherKeys(keys[0]));
      HasMember(deliveries, key);
      HasMember(Removed(deliveries, keys[0]), key);
      RemovedAllHas(Removed(deliveries, keys[0]), keys[1..], key);
    }
  }

  lemma {:induction false} AddCounts(counts: map<string, nat>, keys: seq<string>, key: string)
    requires NoDuplicates(keys)
    ensures Count(Add(counts, keys), key) == Count(counts, key) + if key in keys then 1 else 0
    decreases keys
  {
    if keys != [] {
      AddCounts(counts[keys[0] := Count(counts, keys[0]) + 1], keys[1..], key);
      assert key in keys <==> key == keys[0] || key in keys[1..];
      assert keys[0] !in keys[1..];
    }
  }

  /** Delivery keys and body keys never meet. */
  lemma KeysDiffer(action: Action)
    ensures NoDuplicates(Keys(action))
  {
    if action.GitHub? {
      var d, b := DeliveryKey(action.eventName, action.deliveryId), BodyKey(action.bodyHash);
      assert d[14] == DELIVERY_PREFIX[14] && b[14] == BODY_PREFIX[14];
    }
  }

  // ---------------------------------------------------------------- the invariant

  ghost predicate Balanced(m: Machine, key: string) {
    && Count(m.accepted, key) == Count(m.failedFlushes, key) + (if Has(m.deliveries, key) then 1 else 0)
    && Count(m.effects, key) + Count(m.acknowledged, key) == Count(m.accepted, key)
  }

  ghost predicate Inv(m: Machine) {
    && (forall r :: r in m.pending ==> NoDuplicates(m.pending[r]))
    && (forall r, key :: r in m.pending && key in m.pending[r] ==> Has(m.deliveries, key))
    && (forall r, s, key :: r in m.pending && s in m.pending && key in m.pending[r] && key in m.pending[s] ==> r == s)
    && (forall key :: Balanced(m, key))
  }

  lemma AcceptedIsNew(deliveries: seq<Delivery>, action: Action)
    requires !action.FlushEnds?
    ensures AnswerTo(deliveries, action) == Accepted <==>
              !action.work.Refuses? && forall key :: key in Keys(action) ==> !Has(deliveries, key)
    ensures !action.work.Refuses? ==>
              forall key :: key in Keys(action) <==> exists e :: e in Entries(action) && e.key == key
  {
    if !action.work.Refuses? {
      assert Entries(action)[0].key == Keys(action)[0] && Entries(action)[0] in Entries(action);
      assert action.GitHub? ==> Entries(action)[1].key == Keys(action)[1] && Entries(action)[1] in Entries(action);
    }
    assert Keys(action)[0] in Keys(action);
    assert action.GitHub? ==> Keys(action)[1] in Keys(action);
  }

  lemma AcceptedCounts(m: Machine, action: Action)
    requires Enabled(m, action) && !action.FlushEnds? && AnswerTo(m.deliveries, action) == Accepted
    ensures var m', keys := Apply(m, action), Keys(action);
            && !action.work.Refuses? && m'.deliveries == RecordedAll(m.deliveries, Entries(action))
            && m'.accepted == Add(m.accepted, keys) && m'.failedFlushes == m.failedFlushes
            && m'.effects == (if action.work.Processes? then Add(m.effects, keys) else m.effects)
            && m'.acknowledged == if action.work.Processes? then m.acknowledged else Add(m.acknowledged, keys)
  {
    AcceptedIsNew(m.deliveries, action);
    hide AnswerTo, Keys, Entries;
  }

  lemma AcceptBalances(m: Machine, action: Action, key: string)
    requires Balanced(m, key) && Enabled(m, action) && !action.FlushEnds? && AnswerTo(m.deliveries, action) == Accepted
    ensures var m' := Apply(m, action);
            && (Has(m'.deliveries, key) <==> Has(m.deliveries, key) || key in Keys(action)) && Balanced(m', key)
  {
    KeysDiffer(action);
    AcceptedIsNew(m.deliveries, action);
    AcceptedCounts(m, action);
    hide Has, AnswerTo, Keys, Entries, Apply, Count, Add, RecordedAll;
    RecordedAllHas(m.deliveries, Entries(action), key);
    AddCounts(m.accepted, Keys(action), key);
    AddCounts(m.effects, Keys(action), key);
    AddCounts(m.acknowledged, Keys(action), key);
  }

  lemma AcceptKeepsInv(m: Machine, action: Action)
    requires Inv(m) && Enabled(m, action) && !action.FlushEnds? && AnswerTo(m.deliveries, action) == Accepted
    ensures Inv(Apply(m, action))
  {
    var m' := Apply(m, action);
    KeysDiffer(action);
    AcceptedIsNew(m.deliveries, action);
    hide Has, AnswerTo, Keys, Balanced;
    forall key
      ensures Has(m'.deliveries, key) <==> Has(m.deliveries, key) || key in Keys(action)
      ensures Balanced(m', key)
    {
      AcceptBalances(m, action, key);
    }
  }

  lemma FlushBalances(m: Machine, action: Action, key: string)
    requires Inv(m) && Enabled(m, action) && action.FlushEnds?
    ensures Balanced(Apply(m, action), key)
  {
    var keys := m.pending[action.request];
    hide Has;
    assert Balanced(m, key);
    RemovedAllHas(m.deliveries, keys, key);
    AddCounts(m.failedFlushes, keys, key);
  }

  lemma FlushKeepsInv(m: Machine, action: Action)
    requires Inv(m) && Enabled(m, action) && action.FlushEnds?
    ensures Inv(Apply(m, action))
  {
    var m' := Apply(m, action);
    var keys := m.pending[action.request];
    hide Has, Balanced;
    forall key ensures Balanced(m', key) {
      FlushBalances(m, action, key);
    }
    forall r, key | r in m'.pending && key in m'.pending[r] ensures Has(m'.deliveries, key) {
      RemovedAllHas(m.deliveries, keys, key);
    }
  }

  lemma StepKeepsInv(m: Machine, action: Action)
    requires Inv(m) && Enabled(m, action)
    ensures Inv(Apply(m, action))
  {
    if action.FlushEnds? {
      FlushKeepsInv(m, action);
    } else if AnswerTo(m.deliveries, action) == Accepted {
      AcceptKeepsInv(m, action);
    }
  }

  // ---------------------------------------------------------------- over every interleaving

  ghost predicate Reaches(actions: seq<Action>, m: Machine) {
    if actions == [] then m == Machine([], map[], map[], map[], map[], map[])
    else
      var n := |actions| - 1;
      exists before :: Reaches(actions[..n], before) && Enabled(before, actions[n]) && m == Apply(before, actions[n])
  }

  lemma {:induction false} RunKeepsInv(actions: seq<Action>, m: Machine)
    requires Reaches(actions, m)
    ensures Inv(m)
  {
    hide Enabled, Apply;
    if actions != [] {
      var n := |actions| - 1;
      var before :| Reaches(actions[..n], before) && Enabled(before, actions[n]) && m == Apply(before, actions[n]);
      RunKeepsInv(actions[..n], before);
      StepKeepsInv(before, actions[n]);
    }
  }

  /** However duplicates and flushes interleave, a key was accepted exactly once more than its
      flushes failed while it is present, and exactly as often while it is absent; its effect ran each
      of those times but the ones it was only acknowledged. */
  lemma ProcessedOncePerFlush(actions: seq<Action>, m: Machine, key: string)
    requires Reaches(actions, m)
    ensures Count(m.accepted, key) == Count(m.failedFlushes, key) + if Has(m.deliveries, key) then 1 else 0
    ensures Count(m.effects, key) == Count(m.accepted, key) - Count(m.acknowledged, key)
  {
    RunKeepsInv(actions, m);
    assert Balanced(m, key);
  }

  /** A delivery is accepted exactly when none of its keys is present; otherwise nothing changes.
      For GitHub that includes the body key, whatever the delivery id: a body already taken under
      another id gets the saved response, and an id that comes back with another body a conflict. */
  lemma AcceptedExactly(m: Machine, action: Action)
    requires Enabled(m, action) && !action.FlushEnds?
    ensures AnswerTo(m.deliveries, action) == Accepted <==>
              !action.work.Refuses? && forall key :: key in Keys(action) ==> !Has(m.deliveries, key)
    ensures AnswerTo(m.deliveries, action) != Accepted ==> Apply(m, action) == m
    ensures action.GitHub? ==>
              var dk, bk := DeliveryKey(action.eventName, action.deliveryId), BodyKey(action.bodyHash);
              && (AnswerTo(m.deliveries, action) == Conflict <==>
                   Has(m.deliveries, dk) && Find(m.deliveries, dk).value.response.bodyHash != Some(action.bodyHash))
              && (!Has(m.deliveries, dk) && Has(m.deliveries, bk) ==>
                   AnswerTo(m.deliveries, action) == Duplicate(Find(m.deliveries, bk).value.response))
  {
    AcceptedIsNew(m.deliveries, action);
  }
}
