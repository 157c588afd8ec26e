/** The store's promise-chained persistence: every change appends a link that saves a snapshot, a
    failed save sets an error that later links respect, and a flush reports it. Proved over all
    interleavings of recording, saving and flushing. */
module PersistenceChain {
  import opened Wrappers

  /** What has happened so far. Links are numbered in the order their snapshots were recorded; a
      flush is known by `upTo`, the number of snapshots recorded when it was called. */
  datatype Event =
    | Saved(link: nat)
    | Failed(link: nat, error: string)
    | Skipped(link: nat)
    | Thrown(upTo: nat, error: string)
    | Returned(upTo: nat)

  /** `settled` links are done; while `saving`, the next one is waiting for the sink. */
  datatype Chain<S> = Chain(recorded: seq<S>, settled: nat, saving: bool, error: Option<string>, log: seq<Event>)

  datatype Action<S> =
    | Record(snapshot: S)
    | StartLink
    | FinishSave(failure: Option<string>)
    | ResumeFlush(upTo: nat)

  function Initial<S>(): Chain<S> {
    Chain([], 0, false, None, [])
  }

  /** A flush resumes once the promise it saw, the chain's end at its call, has settled. */
  predicate Enabled<S>(c: Chain<S>, action: Action<S>) {
    match action
    case Record(_) => true
    case StartLink => !c.saving && c.settled < |c.recorded|
    case FinishSave(_) => c.saving
    case ResumeFlush(upTo) => upTo <= c.settled
  }

  function Step<S>(c: Chain<S>, action: Action<S>): Chain<S>
    requires Enabled(c, action)
  {
    match action
    case Record(snapshot) => c.(recorded := c.recorded + [snapshot])
    case StartLink =>
      if c.error.Some? then c.(settled := c.settled + 1, log := c.log + [Skipped(c.settled)])
      else c.(saving := true)
    case FinishSave(None) => c.(saving := false, settled := c.settled + 1, log := c.log + [Saved(c.settled)])
    case FinishSave(Some(error)) =>
      c.(saving := false, settled := c.settled + 1, error := Some(error), log := c.log + [Failed(c.settled, error)])
    case ResumeFlush(upTo) =>
      if c.error.Some? then c.(error := None, log := c.log + [Thrown(upTo, c.error.value)])
      else c.(log := c.log + [Returned(upTo)])
  }

  ghost predicate Reaches<S(!new)>(actions: seq<Action<S>>, c: Chain<S>) {
    if actions == [] then c == Initial()
    else
      var n := |actions| - 1;
      exists before :: Reaches(actions[..n], before) && Enabled(before, actions[n]) && c == Step(before, actions[n])
  }

  // ---------------------------------------------------------------- the store's own fields

  class BekStorePersistence<S> {
    var pending: seq<S>
    var saving: bool
    var persistenceError: Option<string>
    ghost var chain: Chain<S>

    ghost predicate Valid()
      reads this
    {
      && chain.settled <= |chain.recorded| && pending == chain.recorded[chain.settled..]
      && saving == chain.saving && persistenceError == chain.error
      && (saving ==> pending != [])
    }

    constructor ()
      ensures Valid() && chain == Initial()
    {
      pending, saving, persistenceError := [], false, None;
      chain := Initial();
    }

    /** `recordChange`: hang one more link on the queue. */
    method RecordChange(snapshot: S)
      requires Valid()
      modifies this
      ensures Valid() && chain == Step(old(chain), Record(snapshot))
    {
      pending := pending + [snapshot];
      chain := Step(chain, Record(snapshot));
    }

    /** The `then` callback of the next link; it hands the sink a snapshot unless an error stands. */
    method RunLink() returns (toSave: Option<S>)
      requires Valid() && Enabled(chain, StartLink)
      modifies this
      ensures Valid() && chain == Step(old(chain), StartLink)
      ensures toSave == if old(persistenceError).Some? then None else Some(old(pending)[0])
    {
      chain := Step(chain, StartLink);
      if persistenceError.Some? {
        pending := pending[1..];
        return None;
      }
      saving := true;
      return Some(pending[0]);
    }

    /** The sink answered; a rejection runs the `catch` callback. */
    method SettleLink(failure: Option<string>)
      requires Valid() && saving
      modifies this
      ensures Valid() && chain == Step(old(chain), FinishSave(failure))
    {
      chain := Step(chain, FinishSave(failure));
      saving := false;
      pending := pending[1..];
      if failure.Some? {
        persistenceError := failure;
      }
    }

    /** The rest of `flushChanges` after its `await`. */
    method FinishFlush(upTo: nat) returns (thrown: Option<string>)
      requires Valid() && Enabled(chain, ResumeFlush(upTo))
      modifies this
      ensures Valid() && chain == Step(old(chain), ResumeFlush(upTo))
      ensures thrown == old(persistenceError)
    {
      chain := Step(chain, ResumeFlush(upTo));
      thrown := persistenceError;
      if persistenceError.Some? {
        persistenceError := None;
      }
    }
  }

  // ---------------------------------------------------------------- reading the log

  predicate IsLink(e: Event) {
    e.Saved? || e.Failed? || e.Skipped?
  }

  /** The errors of failed saves, in order of occurrence. */
  function Failures(log: seq<Event>): seq<string> {
    if log == [] then []
    else Failures(log[..|log| - 1]) + if log[|log| - 1].Failed? then [log[|log| - 1].error] else []
  }

  /** The errors flushes have thrown, in order. */
  function Throws(log: seq<Event>): seq<string> {
    if log == [] then []
    else Throws(log[..|log| - 1]) + if log[|log| - 1].Thrown? then [log[|log| - 1].error] else []
  }

  ghost predicate ReportedBetween(log: seq<Event>, i: nat, j: nat) {
    exists m :: i < m < j && m < |log| && log[m].Thrown?
  }

  /** Every settled link has exactly one outcome, and the outcomes come in link order. */
  ghost predicate LinksInOrder(log: seq<Event>, settled: nat) {
    && (forall i :: 0 <= i < |log| && IsLink(log[i]) ==> log[i].link < settled)
    && (forall i, j :: 0 <= i < j < |log| && IsLink(log[i]) && IsLink(log[j]) ==> log[i].link < log[j].link)
    && (forall k :: 0 <= k < settled ==> HasOutcome(log, k))
  }

  ghost predicate HasOutcome(log: seq<Event>, k: nat) {
    exists i :: 0 <= i < |log| && IsLink(log[i]) && log[i].link == k
  }

  /** Between a failure and the flush that reports it nothing is saved. */
  ghost predicate QuietAfterFailure(log: seq<Event>) {
    forall i, j :: 0 <= i < j < |log| && log[i].Failed? && log[j].Saved? ==> ReportedBetween(log, i, j)
  }

  ghost predicate AllReported(log: seq<Event>) {
    forall i :: 0 <= i < |log| && log[i].Failed? ==> ReportedBetween(log, i, |log|)
  }

  /** A link is skipped only after some earlier link failed. */
  ghost predicate SkipsHaveCause(log: seq<Event>) {
    forall i :: 0 <= i < |log| && log[i].Skipped? ==> FailedBelow(log, log[i].link)
  }

  ghost predicate FailedBelow(log: seq<Event>, link: nat) {
    exists j :: 0 <= j < |log| && log[j].Failed? && log[j].link < link
  }

  /** Failures and throws are the same errors in the same order; only the standing error, if there is
      one, is still to be thrown. So no failure is overwritten and none is thrown twice. */
  ghost predicate ErrorsAccounted<S>(c: Chain<S>) {
    Failures(c.log) == Throws(c.log) + if c.error.Some? then [c.error.value] else []
  }

  ghost predicate Inv<S>(c: Chain<S>) {
    && c.settled <= |c.recorded|
    && (c.saving ==> c.settled < |c.recorded| && c.error.None?)
    && LinksInOrder(c.log, c.settled)
    && QuietAfterFailure(c.log)
    && (c.error.None? ==> AllReported(c.log))
    && SkipsHaveCause(c.log)
    && ErrorsAccounted(c)
  }

  lemma {:induction false} FailureInLog(log: seq<Event>) returns (i: nat)
    requires Failures(log) != []
    ensures i < |log| && log[i].Failed?
  {
    if log[|log| - 1].Failed? {
      i := |log| - 1;
    } else {
      i := FailureInLog(log[..|log| - 1]);
    }
  }

  lemma AppendReported(log: seq<Event>, e: Event, i: nat, j: nat)
    requires ReportedBetween(log, i, j)
    ensures ReportedBetween(log + [e], i, j)
  {
    var m :| i < m < j && m < |log| && log[m].Thrown?;
    assert (log + [e])[m].Thrown?;
  }

  lemma AppendQuiet(log: seq<Event>, e: Event)
    requires QuietAfterFailure(log) && (e.Saved? ==> AllReported(log))
    ensures QuietAfterFailure(log + [e])
  {
    var log' := log + [e];
    forall i, j | 0 <= i < j < |log'| && log'[i].Failed? && log'[j].Saved? ensures ReportedBetween(log', i, j) {
      if j < |log| {
        assert log[i].Failed? && log[j].Saved?;
        AppendReported(log, e, i, j);
      } else {
        assert log[i].Failed?;
        AppendReported(log, e, i, |log|);
      }
    }
  }

  lemma AppendAllReported(log: seq<Event>, e: Event)
    requires e.Thrown? || (AllReported(log) && !e.Failed?)
    ensures AllReported(log + [e])
  {
    var log' := log + [e];
    forall i | 0 <= i < |log'| && log'[i].Failed? ensures ReportedBetween(log', i, |log'|) {
      if e.Thrown? {
        assert log'[|log|].Thrown?;
      } else {
        assert log[i].Failed?;
        AppendReported(log, e, i, |log|);
      }
    }
  }

  lemma AppendLink(log: seq<Event>, e: Event, settled: nat)
    requires LinksInOrder(log, settled) && (IsLink(e) ==> e.link == settled)
    ensures LinksInOrder(log + [e], if IsLink(e) then settled + 1 else settled)
  {
    var log' := log + [e];
    forall k | 0 <= k < (if IsLink(e) then settled + 1 else settled) ensures HasOutcome(log', k) {
      if k < settled {
        assert HasOutcome(log, k);
        var i :| 0 <= i < |log| && IsLink(log[i]) && log[i].link == k;
        assert IsLink(log'[i]) && log'[i].link == k;
      } else {
        assert IsLink(log'[|log|]) && log'[|log|].link == k;
      }
    }
  }

  lemma AppendSkips(log: seq<Event>, e: Event)
    requires SkipsHaveCause(log) && (e.Skipped? ==> FailedBelow(log, e.link))
    ensures SkipsHaveCause(log + [e])
  {
    var log' := log + [e];
    forall i | 0 <= i < |log'| && log'[i].Skipped? ensures FailedBelow(log', log'[i].link) {
      assert i < |log| ==> log[i].Skipped?;
      var j :| 0 <= j < |log| && log[j].Failed? && log[j].link < log'[i].link;
      assert log'[j].Failed? && log'[j].link < log'[i].link;
    }
  }

  lemma StepErrors<S>(c: Chain<S>, action: Action<S>)
    requires ErrorsAccounted(c) && (c.saving ==> c.error.None?) && Enabled(c, action)
    ensures ErrorsAccounted(Step(c, action))
  {
    match action {
      case Record(_) =>
      case StartLink => LogErrors(c.log, Skipped(c.settled));
      case FinishSave(None) => LogErrors(c.log, Saved(c.settled));
      case FinishSave(Some(error)) => LogErrors(c.log, Failed(c.settled, error));
      case ResumeFlush(upTo) => LogErrors(c.log, if c.error.Some? then Thrown(upTo, c.error.value) else Returned(upTo));
    }
    hide Failures, Throws;
  }

  lemma LogErrors(log: seq<Event>, e: Event)
    ensures Failures(log + [e]) == Failures(log) + if e.Failed? then [e.error] else []
    ensures Throws(log + [e]) == Throws(log) + if e.Thrown? then [e.error] else []
  {
    assert (log + [e])[..|log|] == log;
  }

  lemma StepKeepsInv<S>(c: Chain<S>, action: Action<S>)
    requires Inv(c) && Enabled(c, action)
    ensures Inv(Step(c, action))
  {
    StepErrors(c, action);
    hide LinksInOrder, QuietAfterFailure, AllReported, SkipsHaveCause, FailedBelow, ErrorsAccounted;
    match action {
      case Record(_) =>
      case StartLink => StartKeepsInv(c);
      case FinishSave(_) => FinishKeepsInv(c, action);
      case ResumeFlush(_) => ResumeKeepsInv(c, action);
    }
  }

  lemma StartKeepsInv<S>(c: Chain<S>)
    requires Inv(c) && Enabled(c, StartLink) && ErrorsAccounted(Step(c, StartLink))
    ensures Inv(Step(c, StartLink))
  {
    hide LinksInOrder, QuietAfterFailure, AllReported, SkipsHaveCause, FailedBelow, ErrorsAccounted;
    if c.error.Some? {
      StandingFailure(c);
      AppendEvent(c, Skipped(c.settled));
    }
  }

  lemma FinishKeepsInv<S>(c: Chain<S>, action: Action<S>)
    requires Inv(c) && Enabled(c, action) && action.FinishSave? && ErrorsAccounted(Step(c, action))
    ensures Inv(Step(c, action))
  {
    hide LinksInOrder, QuietAfterFailure, AllReported, SkipsHaveCause, FailedBelow, ErrorsAccounted;
    match action.failure {
      case None =>
        AppendEvent(c, Saved(c.settled));
        AppendAllReported(c.log, Saved(c.settled));
      case Some(error) => AppendEvent(c, Failed(c.settled, error));
    }
  }

  lemma ResumeKeepsInv<S>(c: Chain<S>, action: Action<S>)
    requires Inv(c) && Enabled(c, action) && action.ResumeFlush? && ErrorsAccounted(Step(c, action))
    ensures Inv(Step(c, action))
  {
    hide LinksInOrder, QuietAfterFailure, AllReported, SkipsHaveCause, FailedBelow, ErrorsAccounted;
    var e := if c.error.Some? then Thrown(action.upTo, c.error.value) else Returned(action.upTo);
    AppendEvent(c, e);
    AppendAllReported(c.log, e);
  }

  /** While an error stands, some settled link has failed. */
  lemma StandingFailure<S>(c: Chain<S>)
    requires Inv(c) && c.error.Some?
    ensures FailedBelow(c.log, c.settled)
  {
    var i := FailureInLog(c.log);
    hide HasOutcome, QuietAfterFailure, SkipsHaveCause;
    assert IsLink(c.log[i]) && c.log[i].link < c.settled;
  }

  lemma AppendEvent<S>(c: Chain<S>, e: Event)
    requires Inv(c) && (IsLink(e) ==> e.link == c.settled)
    requires (e.Saved? ==> AllReported(c.log)) && (e.Skipped? ==> FailedBelow(c.log, e.link))
    ensures LinksInOrder(c.log + [e], if IsLink(e) then c.settled + 1 else c.settled)
    ensures QuietAfterFailure(c.log + [e]) && SkipsHaveCause(c.log + [e])
  {
    hide LinksInOrder, QuietAfterFailure, AllReported, SkipsHaveCause, FailedBelow, ErrorsAccounted;
    AppendLink(c.log, e, c.settled);
    AppendQuiet(c.log, e);
    AppendSkips(c.log, e);
  }

  lemma {:induction false} ReachedKeepsInv<S(!new)>(actions: seq<Action<S>>, c: Chain<S>)
    requires Reaches(actions, c)
    ensures Inv(c)
  {
    if actions != [] {
      var n := |actions| - 1;
      var before :| Reaches(actions[..n], before) && Enabled(before, actions[n]) && c == Step(before, actions[n]);
      ReachedKeepsInv(actions[..n], before);
      StepKeepsInv(before, actions[n]);
    }
  }

  // ---------------------------------------------------------------- what the store promises

  /** In every interleaving: saved snapshots are recorded ones in recording order; nothing is saved
      between a failure and its report; failures are thrown in order, each at most once, and none is
      overwritten. */
  lemma PersistenceIsOrderly<S(!new)>(actions: seq<Action<S>>, c: Chain<S>)
    requires Reaches(actions, c)
    ensures forall i :: 0 <= i < |c.log| && c.log[i].Saved? ==> c.log[i].link < |c.recorded|
    ensures forall i, j :: 0 <= i < j < |c.log| && c.log[i].Saved? && c.log[j].Saved? ==> c.log[i].link < c.log[j].link
    ensures QuietAfterFailure(c.log)
    ensures Throws(c.log) <= Failures(c.log) && |Failures(c.log)| <= |Throws(c.log)| + 1
    ensures c.error.Some? <==> |Failures(c.log)| == |Throws(c.log)| + 1
  {
    ReachedKeepsInv(actions, c);
  }

  ghost predicate SavedFirst(log: seq<Event>, upTo: nat) {
    forall k :: 0 <= k < upTo ==> Saved(k) in log
  }

  /** A flush that returns has saved everything recorded before its call exactly when none of those
      saves failed. In particular it has if no save failed at all. */
  lemma ReturningFlushExactly<S(!new)>(actions: seq<Action<S>>, c: Chain<S>, upTo: nat)
    requires Reaches(actions, c) && Enabled(c, ResumeFlush(upTo)) && c.error.None?
    ensures SavedFirst(c.log, upTo) <==> !FailedBelow(c.log, upTo)
    ensures Failures(c.log) == [] ==> SavedFirst(c.log, upTo)
  {
    ReachedKeepsInv(actions, c);
    hide Reaches, QuietAfterFailure, AllReported, ErrorsAccounted, LinksInOrder, SkipsHaveCause;
    if FailedBelow(c.log, upTo) {
      var j :| 0 <= j < |c.log| && c.log[j].Failed? && c.log[j].link < upTo;
      FailedNotSaved(c.log, c.settled, j);
      FailedIsListed(c.log, j);
    } else {
      forall k | 0 <= k < upTo ensures Saved(k) in c.log {
        UnfailedSaved(c.log, c.settled, k, upTo);
      }
    }
  }

  lemma FailedNotSaved(log: seq<Event>, settled: nat, j: nat)
    requires LinksInOrder(log, settled) && j < |log| && log[j].Failed?
    ensures Saved(log[j].link) !in log
  {
    hide HasOutcome;
    forall i | 0 <= i < |log| ensures log[i] != Saved(log[j].link) {
      assert IsLink(log[j]);
    }
  }

  /** A settled link below `upTo`, where nothing failed, was saved: there was no cause to skip it. */
  lemma UnfailedSaved(log: seq<Event>, settled: nat, k: nat, upTo: nat)
    requires LinksInOrder(log, settled) && SkipsHaveCause(log) && k < upTo <= settled && !FailedBelow(log, upTo)
    ensures Saved(k) in log
  {
    assert HasOutcome(log, k);
    var i :| 0 <= i < |log| && IsLink(log[i]) && log[i].link == k;
    assert !FailedBelow(log, k);
    assert log[i].Saved?;
  }

  lemma {:induction false} FailedIsListed(log: seq<Event>, j: nat)
    requires j < |log| && log[j].Failed?
    ensures Failures(log) != []
  {
    if j < |log| - 1 {
      FailedIsListed(log[..|log| - 1], j);
    }
  }

  /** The trap: after a failed flush, a second one can return although a snapshot recorded before
      both was never saved. */
  lemma SkippedSnapshotNeverSaved<S(!new)>(first: S, second: S) returns (actions: seq<Action<S>>, c: Chain<S>)
    ensures Reaches(actions, c) && Enabled(c, ResumeFlush(2)) && c.error.None?
    ensures c.recorded == [first, second] && Saved(1) !in c.log && Skipped(1) in c.log
  {
    actions, c := [], Initial();
    actions, c := Extend(actions, c, Record(first));
    actions, c := Extend(actions, c, Record(second));
    actions, c := Extend(actions, c, StartLink);
    actions, c := Extend(actions, c, FinishSave(Some("sink unavailable")));
    actions, c := Extend(actions, c, StartLink);
    actions, c := Extend(actions, c, ResumeFlush(2));
  }

  lemma Extend<S(!new)>(actions: seq<Action<S>>, c: Chain<S>, action: Action<S>)
    returns (actions': seq<Action<S>>, c': Chain<S>)
    requires Reaches(actions, c) && Enabled(c, action)
    ensures actions' == actions + [action] && c' == Step(c, action) && Reaches(actions', c')
  {
    actions', c' := actions + [action], Step(c, action);
    assert actions'[..|actions|] == actions;
  }
}
