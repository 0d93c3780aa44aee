/**
 * A batch in the delivery protocol. While a bulk call publishes its immediate jobs and its
 * goroutines create tasks, other requests and callbacks go on. Each result of the batch is
 * what a single call would get at the moment its request is handed over, and the batch only
 * prolongs the run it is part of, so whatever holds of every run holds with batches too.
 */
module BulkDelivery {
  import opened Wrappers
  import opened Jobs
  import opened Fanout
  import opened Delivery
  import PubSub
  import CloudTasks
  import Server

  // ---------- what a bulk call sets out to do ----------

  function DecisionsOn(subs: seq<Submission>): (ds: seq<Server.Decision>)
    ensures |ds| == |subs|
  {
    seq(|subs|, i requires 0 <= i < |subs| => DecisionOn(subs[i]))
  }

  /** For the submissions of one call these are the decisions that the server makes. */
  lemma DecisionsOfCall(env: Server.Env, reqs: seq<Server.Request>, rds: seq<Server.Reading>, subs: seq<Submission>)
    requires |subs| == |reqs| == |rds|
    requires forall i :: 0 <= i < |subs| ==> subs[i].env == env && subs[i].req == reqs[i] && subs[i].rd == rds[i]
    ensures DecisionsOn(subs) == Server.Decisions(env, reqs, rds)
  {
  }

  predicate AdmittedAs(sub: Submission, job: Job, deferred: bool) {
    var d := DecisionOn(sub);
    d.Admitted? && d.job == job && d.deferred == deferred
  }

  /** The jobs of the two lists, the requests they come from, and the scheduler's goroutines. */
  datatype Plan = Plan(subs: seq<Submission>, now: seq<nat>, nowJobs: seq<Job>,
                       later: seq<nat>, laterJobs: seq<Job>, slots: seq<Slot>)

  predicate JobsOf(subs: seq<Submission>, places: seq<nat>, jobs: seq<Job>, deferred: bool) {
    && |places| == |jobs|
    && forall k :: 0 <= k < |jobs| ==> places[k] < |subs| && AdmittedAs(subs[places[k]], jobs[k], deferred)
  }

  predicate Fits(w: World, plan: Plan) {
    && JobsOf(plan.subs, plan.now, plan.nowJobs, false)
    && JobsOf(plan.subs, plan.later, plan.laterJobs, true)
    && |plan.slots| == |plan.laterJobs|
    && forall k :: 0 <= k < |plan.slots| ==>
         plan.slots[k] == SlotOf(w, plan.laterJobs[k], plan.subs[plan.later[k]].create)
  }

  function PublishFates(plan: Plan): (fates: seq<PubSub.Fate>)
    requires JobsOf(plan.subs, plan.now, plan.nowJobs, false)
    ensures |fates| == |plan.nowJobs|
  {
    seq(|plan.now|, k requires 0 <= k < |plan.now| => plan.subs[plan.now[k]].publish)
  }

  function CreateFates(subs: seq<Submission>, places: seq<nat>): (fates: seq<CloudTasks.Fate>)
    requires forall k :: 0 <= k < |places| ==> places[k] < |subs|
    ensures |fates| == |places|
  {
    seq(|places|, k requires 0 <= k < |places| => subs[places[k]].create)
  }

  lemma PositionsHoldJobs(subs: seq<Submission>, deferred: bool)
    ensures var ds := DecisionsOn(subs);
            JobsOf(subs, Server.Positions(ds, deferred), Server.JobsAt(ds, deferred), deferred)
  {
    var ds := DecisionsOn(subs);
    forall k | 0 <= k < |Server.Positions(ds, deferred)|
      ensures Server.Positions(ds, deferred)[k] < |subs|
      ensures AdmittedAs(subs[Server.Positions(ds, deferred)[k]], Server.JobsAt(ds, deferred)[k], deferred)
    {
      Server.JobsAtPositions(ds, deferred, k);
    }
  }

  /** The plan has the two lists that the server makes by these decisions. */
  predicate Follows(w: World, plan: Plan, ds: seq<Server.Decision>) {
    && Fits(w, plan)
    && |ds| == |plan.subs| && (forall i :: 0 <= i < |ds| ==> ds[i] == DecisionOn(plan.subs[i]))
    && plan.now == Server.Positions(ds, false) && plan.nowJobs == Server.JobsAt(ds, false)
    && plan.later == Server.Positions(ds, true) && plan.laterJobs == Server.JobsAt(ds, true)
  }

  /** The server's lists, and the goroutines that the scheduler starts for its list. */
  function PlanOf(w: World, subs: seq<Submission>): (plan: Plan)
    ensures plan.subs == subs && Follows(w, plan, DecisionsOn(subs))
    ensures plan.slots == CloudTasks.SlotsFor(w.codec, w.queuePath, plan.laterJobs, CreateFates(subs, plan.later))
  {
    PositionsHoldJobs(subs, false);
    PositionsHoldJobs(subs, true);
    var ds := DecisionsOn(subs);
    var later, laterJobs := Server.Positions(ds, true), Server.JobsAt(ds, true);
    Plan(subs, Server.Positions(ds, false), Server.JobsAt(ds, false), later, laterJobs,
         CloudTasks.SlotsFor(w.codec, w.queuePath, laterJobs, CreateFates(subs, later)))
  }

  // ---------- a bulk call among other things that happen ----------

  datatype Event =
    | PublishNext               // the backend publishes the next immediate job
    | Goroutine(move: Move)     // the scheduler starts a goroutine, or one of them finishes
    | Elsewhere(step: Label)   // another request or a callback is handled

  /** next counts the immediate jobs published; the tasks in fan are those of the last move. */
  datatype Progress = Progress(state: State, next: nat, fan: Fan)

  /** A goroutine has created its task, or failed to, among whatever tasks there were. */
  function AfterFinish(s: State, fan: Fan, i: nat, job: Job): State
    requires i < |fan.results|
  {
    State(fan.tasks, s.published, if fan.results[i].error.None? then s.accepted + {job} else s.accepted,
          s.submitted + {job})
  }

  predicate Proceeds(w: World, plan: Plan, g: Progress, e: Event, g': Progress)
    requires Fits(w, plan)
  {
    match e
    case PublishNext =>
      && g.next < |plan.now|
      && var sub := plan.subs[plan.now[g.next]];
         g' == Progress(AfterSubmit(w, g.state, plan.nowJobs[g.next], false, sub.publish, sub.create),
                        g.next + 1, g.fan)
    case Goroutine(m) =>
      && g.next == |plan.now|
      && Sound(plan.slots, g.fan) && Enabled(plan.slots, g.fan, m)
      && var fan := Do(plan.slots, g.fan.(tasks := g.state.tasks), m);
         g' == Progress(if m.Finish? then AfterFinish(g.state, fan, m.i, plan.laterJobs[m.i]) else g.state, g.next, fan)
    case Elsewhere(l) =>
      Step(w, g.state, l, g'.state) && g'.next == g.next && g'.fan == g.fan
  }

  /** The progress of one bulk call, event by event, from its beginning. */
  predicate IsHandling(w: World, plan: Plan, gs: seq<Progress>, es: seq<Event>)
    requires Fits(w, plan)
  {
    && |gs| == |es| + 1
    && gs[0].next == 0 && gs[0].fan == Start(|plan.slots|, gs[0].state.tasks)
    && forall q :: 0 <= q < |es| ==> Proceeds(w, plan, gs[q], es[q], gs[q + 1])
  }

  predicate Completed(plan: Plan, g: Progress) {
    g.next == |plan.now| && Finished(plan.slots, g.fan)
  }

  /** The request that this event hands over to its service, if it is such an event. */
  function HandsOver(plan: Plan, g: Progress, e: Event): Option<nat> {
    match e
    case PublishNext => if g.next < |plan.now| then Some(plan.now[g.next]) else None
    case Goroutine(m) => if m.Finish? && m.i < |plan.later| then Some(plan.later[m.i]) else None
    case Elsewhere(_) => None
  }

  // ---------- every event is a step of the delivery protocol, or none ----------

  function LabelOf(plan: Plan, g: Progress, e: Event): Option<Label> {
    match e
    case Elsewhere(l) => Some(l)
    case _ =>
      match HandsOver(plan, g, e)
      case None => None
      case Some(i) => if i < |plan.subs| then Some(Submit(plan.subs[i])) else None
  }

  lemma SubmissionOf(w: World, s: State, sub: Submission, job: Job, deferred: bool)
    requires AdmittedAs(sub, job, deferred)
    ensures AfterSubmission(w, s, sub) == AfterSubmit(w, s, job, deferred, sub.publish, sub.create)
    ensures AnswerTo(w, s, sub) == AsServiceError(SubmitError(w, s.tasks, job, deferred, sub.publish, sub.create))
  {
  }

  /** Handing a request over does what submitting it alone does; starting a goroutine does nothing yet. */
  lemma EventIsStep(w: World, plan: Plan, g: Progress, e: Event, g': Progress)
    requires Fits(w, plan) && Proceeds(w, plan, g, e, g')
    ensures match LabelOf(plan, g, e)
            case None => g'.state == g.state
            case Some(l) => Step(w, g.state, l, g'.state)
  {
    match e
    case PublishNext =>
      SubmissionOf(w, g.state, plan.subs[plan.now[g.next]], plan.nowJobs[g.next], false);
    case Goroutine(m) =>
      if m.Finish? {
        SubmissionOf(w, g.state, plan.subs[plan.later[m.i]], plan.laterJobs[m.i], true);
      }
    case Elsewhere(_) =>
  }

  /** A bulk call handled in the last state of a run leads to the last state of a longer run. */
  lemma {:induction false} BatchProlongsRun(w: World, states: seq<State>, labels: seq<Label>,
                                            plan: Plan, gs: seq<Progress>, es: seq<Event>, n: nat)
    returns (states': seq<State>, labels': seq<Label>)
    requires IsRun(w, states, labels) && Fits(w, plan) && IsHandling(w, plan, gs, es) && n <= |es|
    requires gs[0].state == states[|states| - 1]
    ensures IsRun(w, states', labels') && states <= states' && labels <= labels'
    ensures states'[|states'| - 1] == gs[n].state
  {
    if n == 0 {
      return states, labels;
    }
    var ss, ls := BatchProlongsRun(w, states, labels, plan, gs, es, n - 1);
    EventIsStep(w, plan, gs[n - 1], es[n - 1], gs[n]);
    match LabelOf(plan, gs[n - 1], es[n - 1])
    case None =>
      return ss, ls;
    case Some(l) =>
      states', labels' := ss + [gs[n].state], ls + [l];
      RunSnoc(w, ss, ls, gs[n].state, l);
  }

  lemma RunSnoc(w: World, states: seq<State>, labels: seq<Label>, s: State, l: Label)
    requires IsRun(w, states, labels) && Step(w, states[|states| - 1], l, s)
    ensures IsRun(w, states + [s], labels + [l])
  {
    var ss, ls := states + [s], labels + [l];
    forall i | 0 <= i < |ls|
      ensures Step(w, ss[i], ls[i], ss[i + 1])
    {
      if i < |labels| {
        assert Step(w, states[i], labels[i], states[i + 1]);
      }
    }
  }

  // ---------- each request is handed over once ----------

  lemma {:induction false} HandlingIsSound(w: World, plan: Plan, gs: seq<Progress>, es: seq<Event>, q: nat)
    requires Fits(w, plan) && IsHandling(w, plan, gs, es) && q < |gs|
    ensures Sound(plan.slots, gs[q].fan) && gs[q].next <= |plan.now|
  {
    if q > 0 {
      HandlingIsSound(w, plan, gs, es, q - 1);
      assert Proceeds(w, plan, gs[q - 1], es[q - 1], gs[q]);
    }
  }

  /** What one event leaves as it is. */
  lemma EventKeeps(w: World, plan: Plan, g: Progress, e: Event, g': Progress)
    requires Fits(w, plan) && Proceeds(w, plan, g, e, g') && Sound(plan.slots, g.fan)
    ensures Sound(plan.slots, g'.fan)
    ensures g'.next == g.next + (if e.PublishNext? then 1 else 0)
    ensures forall i :: 0 <= i < |plan.slots| && Done(g.fan, i) ==>
              Done(g'.fan, i) && g'.fan.results[i] == g.fan.results[i]
    ensures forall i :: 0 <= i < |plan.slots| && !Done(g.fan, i) && Done(g'.fan, i) ==> e == Goroutine(Finish(i))
    ensures e.Goroutine? && e.move.Finish? ==>
              var i := e.move.i;
              && i < |plan.slots| && !Done(g.fan, i) && Done(g'.fan, i)
              && g'.fan.results[i] == Outcome(plan.slots[i], g.state.tasks)
  {
  }

  /** The immediate jobs published, and the results of finished goroutines, stay to the end. */
  lemma {:induction false} HandlingKeeps(w: World, plan: Plan, gs: seq<Progress>, es: seq<Event>, q: nat, r: nat)
    requires Fits(w, plan) && IsHandling(w, plan, gs, es) && q <= r < |gs|
    ensures |gs[q].fan.results| == |gs[r].fan.results| == |plan.slots| && gs[q].next <= gs[r].next
    ensures forall i :: 0 <= i < |plan.slots| && Done(gs[q].fan, i) ==>
              Done(gs[r].fan, i) && gs[r].fan.results[i] == gs[q].fan.results[i]
  {
    HandlingIsSound(w, plan, gs, es, q);
    HandlingIsSound(w, plan, gs, es, r);
    if q < r {
      HandlingKeeps(w, plan, gs, es, q, r - 1);
      HandlingIsSound(w, plan, gs, es, r - 1);
      EventKeeps(w, plan, gs[r - 1], es[r - 1], gs[r]);
    }
  }

  /** The event that publishes the k-th immediate job. */
  lemma {:induction false} PublishedAt(w: World, plan: Plan, gs: seq<Progress>, es: seq<Event>, k: nat, r: nat)
    returns (q: nat)
    requires Fits(w, plan) && IsHandling(w, plan, gs, es) && r < |gs| && k < gs[r].next
    ensures q < r && es[q].PublishNext? && gs[q].next == k
  {
    assert r > 0;
    HandlingIsSound(w, plan, gs, es, r - 1);
    EventKeeps(w, plan, gs[r - 1], es[r - 1], gs[r]);
    if k < gs[r - 1].next {
      q := PublishedAt(w, plan, gs, es, k, r - 1);
    } else {
      q := r - 1;
    }
  }

  /** The event in which the k-th goroutine finishes. */
  lemma {:induction false} FinishedAt(w: World, plan: Plan, gs: seq<Progress>, es: seq<Event>, k: nat, r: nat)
    returns (q: nat)
    requires Fits(w, plan) && IsHandling(w, plan, gs, es) && r < |gs| && k < |plan.slots| && Done(gs[r].fan, k)
    ensures q < r && es[q] == Goroutine(Finish(k))
  {
    assert r > 0;
    HandlingIsSound(w, plan, gs, es, r - 1);
    EventKeeps(w, plan, gs[r - 1], es[r - 1], gs[r]);
    if Done(gs[r - 1].fan, k) {
      q := FinishedAt(w, plan, gs, es, k, r - 1);
    } else {
      q := r - 1;
    }
  }

  /** No request is handed over twice. */
  lemma HandedOverOnce(w: World, plan: Plan, ds: seq<Server.Decision>, gs: seq<Progress>, es: seq<Event>,
                       q: nat, r: nat)
    requires Follows(w, plan, ds) && IsHandling(w, plan, gs, es) && q < r < |es|
    requires HandsOver(plan, gs[q], es[q]).Some?
    ensures HandsOver(plan, gs[q], es[q]) != HandsOver(plan, gs[r], es[r])
  {
    HandlingIsSound(w, plan, gs, es, q);
    HandlingIsSound(w, plan, gs, es, r);
    EventKeeps(w, plan, gs[q], es[q], gs[q + 1]);
    EventKeeps(w, plan, gs[r], es[r], gs[r + 1]);
    HandlingKeeps(w, plan, gs, es, q + 1, r);
    Server.PositionsExact(ds, false);
    Server.PositionsExact(ds, true);
    assert forall k :: 0 <= k < |plan.now| ==> plan.now[k] in plan.now && plan.now[k] !in plan.later;
    assert forall k :: 0 <= k < |plan.later| ==> plan.later[k] in plan.later;
  }

  // ---------- the response ----------

  /** The bulk calls' answers are what the backend returns and what the goroutines left in the slots. */
  ghost predicate Returned(w: World, plan: Plan, last: Progress, svc: Server.Services)
    requires Fits(w, plan)
  {
    && Server.BulkAnswers(svc.enqueueBulk, plan.nowJobs)
         == PubSub.ResultsOf(w.topics, w.marshal, plan.nowJobs, PublishFates(plan))
    && Server.BulkAnswers(svc.scheduleBulk, plan.laterJobs) == last.fan.results
  }

  lemma PublishMoment(w: World, plan: Plan, gs: seq<Progress>, es: seq<Event>, k: nat) returns (q: nat)
    requires Fits(w, plan) && IsHandling(w, plan, gs, es) && Completed(plan, gs[|es|]) && k < |plan.now|
    ensures q < |es| && HandsOver(plan, gs[q], es[q]) == Some(plan.now[k])
    ensures Server.PointwiseResult(PubSub.ResultOf(w.topics, w.marshal, plan.nowJobs[k], PublishFates(plan)[k]),
                                   plan.nowJobs[k], AnswerTo(w, gs[q].state, plan.subs[plan.now[k]]))
  {
    q := PublishedAt(w, plan, gs, es, k, |es|);
    SubmissionOf(w, gs[q].state, plan.subs[plan.now[k]], plan.nowJobs[k], false);
  }

  lemma FinishMoment(w: World, plan: Plan, gs: seq<Progress>, es: seq<Event>, k: nat) returns (q: nat)
    requires Fits(w, plan) && IsHandling(w, plan, gs, es) && Completed(plan, gs[|es|]) && k < |plan.later|
    ensures q < |es| && HandsOver(plan, gs[q], es[q]) == Some(plan.later[k])
    ensures |gs[|es|].fan.results| == |plan.later|
    ensures Server.PointwiseResult(gs[|es|].fan.results[k], plan.laterJobs[k],
                                   AnswerTo(w, gs[q].state, plan.subs[plan.later[k]]))
  {
    HandlingIsSound(w, plan, gs, es, |es|);
    q := FinishedAt(w, plan, gs, es, k, |es|);
    HandlingIsSound(w, plan, gs, es, q);
    EventKeeps(w, plan, gs[q], es[q], gs[q + 1]);
    HandlingKeeps(w, plan, gs, es, q + 1, |es|);
    SubmissionOf(w, gs[q].state, plan.subs[plan.later[k]], plan.laterJobs[k], true);
  }

  /** The place of an admitted request in its list. */
  lemma PlaceIn(w: World, plan: Plan, ds: seq<Server.Decision>, i: nat) returns (k: nat)
    requires Follows(w, plan, ds) && i < |ds| && ds[i].Admitted?
    ensures if ds[i].deferred then k < |plan.later| && plan.later[k] == i && plan.laterJobs[k] == ds[i].job
            else k < |plan.now| && plan.now[k] == i && plan.nowJobs[k] == ds[i].job
  {
    var positions := Server.Positions(ds, ds[i].deferred);
    Server.PositionsExact(ds, ds[i].deferred);
    assert i in positions;
    k :| 0 <= k < |positions| && positions[k] == i;
    Server.JobsAtPositions(ds, ds[i].deferred, k);
  }

  /** The moment at which an admitted request is handed over, and what it gets in the end. */
  lemma MomentOf(w: World, plan: Plan, ds: seq<Server.Decision>, gs: seq<Progress>, es: seq<Event>, i: nat)
    returns (q: nat, k: nat)
    requires Follows(w, plan, ds) && i < |ds| && ds[i].Admitted?
    requires IsHandling(w, plan, gs, es) && Completed(plan, gs[|es|])
    ensures q < |es| && HandsOver(plan, gs[q], es[q]) == Some(i)
    ensures var answers := if ds[i].deferred then gs[|es|].fan.results
                           else PubSub.ResultsOf(w.topics, w.marshal, plan.nowJobs, PublishFates(plan));
            && k < |Server.Positions(ds, ds[i].deferred)| == |answers|
            && Server.Positions(ds, ds[i].deferred)[k] == i
            && Server.PointwiseResult(answers[k], ds[i].job, AnswerTo(w, gs[q].state, plan.subs[i]))
  {
    k := PlaceIn(w, plan, ds, i);
    if ds[i].deferred {
      q := FinishMoment(w, plan, gs, es, k);
    } else {
      q := PublishMoment(w, plan, gs, es, k);
    }
  }

  /** The requests of one call, the decisions on them, and the response made from what the services returned. */
  ghost predicate IsResponse(w: World, plan: Plan, ds: seq<Server.Decision>, last: Progress, svc: Server.Services,
                             reqs: seq<Server.Request>, results: seq<Server.BulkResult>)
    requires Follows(w, plan, ds)
  {
    && |reqs| == |ds| && (forall i :: 0 <= i < |reqs| ==> reqs[i] == plan.subs[i].req)
    && Returned(w, plan, last, svc)
    && Server.IsBulkOutcome(svc, reqs, ds, results, plan.nowJobs, plan.laterJobs)
  }

  /**
   * Every result of a batch, whatever else is in the batch and whatever happens meanwhile, is
   * what Enqueue would reply to that request alone at the moment it is handed over.
   */
  lemma BatchRefinesSingles(w: World, plan: Plan, ds: seq<Server.Decision>, gs: seq<Progress>, es: seq<Event>,
                            svc: Server.Services, reqs: seq<Server.Request>, results: seq<Server.BulkResult>, i: nat)
    returns (q: nat)
    requires Follows(w, plan, ds) && IsHandling(w, plan, gs, es) && Completed(plan, gs[|es|])
    requires IsResponse(w, plan, ds, gs[|es|], svc, reqs, results) && i < |reqs|
    ensures q <= |es|
    ensures ds[i].Admitted? ==> q < |es| && HandsOver(plan, gs[q], es[q]) == Some(i)
    ensures results[i] == Server.BulkView(reqs[i], ds[i], AnswerTo(w, gs[q].state, plan.subs[i]), i)
  {
    q := |es|;
    if ds[i].Admitted? {
      var k;
      q, k := MomentOf(w, plan, ds, gs, es, i);
      var answers := Server.AnswersFor(svc, ds[i], plan.nowJobs, plan.laterJobs);
      assert results[i] == Server.AnsweredAt(Server.Unanswered(i, reqs[i], ds[i]), answers, k);
      Server.ViewOfAnswer(reqs[i], ds[i], AnswerTo(w, gs[q].state, plan.subs[i]), answers[k], i);
    }
  }

  lemma {:induction false} AcceptedStays(w: World, plan: Plan, gs: seq<Progress>, es: seq<Event>, q: nat, r: nat)
    requires Fits(w, plan) && IsHandling(w, plan, gs, es) && q <= r < |gs|
    ensures gs[q].state.accepted <= gs[r].state.accepted
  {
    if q < r {
      AcceptedStays(w, plan, gs, es, q, r - 1);
      EventIsStep(w, plan, gs[r - 1], es[r - 1], gs[r]);
      match LabelOf(plan, gs[r - 1], es[r - 1])
      case None =>
      case Some(l) => StepKeepsAccepted(w, gs[r - 1].state, l, gs[r].state);
    }
  }

  /** At the moment a request is handed over its job is accepted exactly if there is no error. */
  lemma HandingOverAccepts(w: World, plan: Plan, gs: seq<Progress>, es: seq<Event>, q: nat, i: nat)
    requires Fits(w, plan) && IsHandling(w, plan, gs, es) && q < |es|
    requires HandsOver(plan, gs[q], es[q]) == Some(i) && i < |plan.subs|
    ensures DecisionOn(plan.subs[i]).Admitted?
    ensures gs[q + 1].state.accepted
         == if AnswerTo(w, gs[q].state, plan.subs[i]).None? then gs[q].state.accepted + {DecisionOn(plan.subs[i]).job}
            else gs[q].state.accepted
  {
    EventIsStep(w, plan, gs[q], es[q], gs[q + 1]);
    AcceptedMeansAccepted(w, gs[q].state, plan.subs[i]);
    if es[q].PublishNext? {
      assert AdmittedAs(plan.subs[i], plan.nowJobs[gs[q].next], false);
    } else {
      assert AdmittedAs(plan.subs[i], plan.laterJobs[es[q].move.i], true);
    }
  }

  lemma AdmittedJobHasId(sub: Submission)
    requires DecisionOn(sub).Admitted?
    ensures DecisionOn(sub).job.id != ""
  {
  }

  /**
   * A result names a job identifier only if that job is accepted when the batch is done, and
   * then, by NoAcceptedJobIsLost, is never lost; a result without one had nothing accepted.
   */
  lemma NamedJobIsAccepted(w: World, plan: Plan, ds: seq<Server.Decision>, gs: seq<Progress>, es: seq<Event>,
                           svc: Server.Services, reqs: seq<Server.Request>, results: seq<Server.BulkResult>, i: nat)
    returns (q: nat)
    requires Follows(w, plan, ds) && IsHandling(w, plan, gs, es) && Completed(plan, gs[|es|])
    requires IsResponse(w, plan, ds, gs[|es|], svc, reqs, results) && i < |reqs|
    ensures results[i].jobId != "" ==>
              && ds[i].Admitted? && results[i].jobId == ds[i].job.id && ds[i].job in gs[|es|].state.accepted
    ensures results[i].jobId == "" && ds[i].Admitted? ==>
              && q < |es| && HandsOver(plan, gs[q], es[q]) == Some(i)
              && gs[q + 1].state.accepted == gs[q].state.accepted
  {
    q := BatchRefinesSingles(w, plan, ds, gs, es, svc, reqs, results, i);
    if ds[i].Admitted? {
      AdmittedJobHasId(plan.subs[i]);
      HandingOverAccepts(w, plan, gs, es, q, i);
      AcceptedStays(w, plan, gs, es, q + 1, |es|);
    }
  }

  // ---------- the two bulk methods, one after the other, are such a handling ----------

  lemma HandlingSnoc(w: World, plan: Plan, gs: seq<Progress>, es: seq<Event>, e: Event, g: Progress)
    requires Fits(w, plan) && IsHandling(w, plan, gs, es) && Proceeds(w, plan, gs[|es|], e, g)
    ensures IsHandling(w, plan, gs + [g], es + [e])
  {
    var gs', es' := gs + [g], es + [e];
    forall q | 0 <= q < |es'|
      ensures Proceeds(w, plan, gs'[q], es'[q], gs'[q + 1])
    {
      if q < |es| {
        assert Proceeds(w, plan, gs[q], es[q], gs[q + 1]);
      }
    }
  }

  lemma PublishAddsEmitted(w: World, ps: seq<Publication>, job: Job, fate: PubSub.Fate)
    ensures Messages(ps + Publish(w, job, job.runAt, fate)) == Messages(ps) + PubSub.Emitted(PrepareJob(w, job), fate)
  {
  }

  /** The first n immediate jobs have been published since s, and nothing else has happened. */
  predicate PublishedSoFar(w: World, plan: Plan, s: State, g: Progress, n: nat)
    requires Fits(w, plan) && n <= |plan.now|
  {
    && g.next == n && g.fan == Start(|plan.slots|, s.tasks) && g.state.tasks == s.tasks
    && Messages(g.state.published) == Messages(s.published)
         + PubSub.EmittedAll(w.topics, w.marshal, plan.nowJobs[..n], PublishFates(plan)[..n])
  }

  lemma PublishOneMore(w: World, plan: Plan, s: State, g: Progress, n: nat) returns (g': Progress)
    requires Fits(w, plan) && n < |plan.now| && PublishedSoFar(w, plan, s, g, n)
    ensures Proceeds(w, plan, g, PublishNext, g') && PublishedSoFar(w, plan, s, g', n + 1)
  {
    var job, sub := plan.nowJobs[n], plan.subs[plan.now[n]];
    g' := Progress(AfterSubmit(w, g.state, job, false, sub.publish, sub.create), n + 1, g.fan);
    PublishAddsEmitted(w, g.state.published, job, sub.publish);
    PubSub.EmittedAllNext(w.topics, w.marshal, plan.nowJobs, PublishFates(plan), n);
  }

  /** The backend's bulk method: it publishes the immediate jobs in order. */
  lemma {:induction false} PublishPhase(w: World, plan: Plan, s: State, n: nat)
    returns (gs: seq<Progress>, es: seq<Event>)
    requires Fits(w, plan) && n <= |plan.now|
    ensures IsHandling(w, plan, gs, es) && gs[0].state == s && PublishedSoFar(w, plan, s, gs[|es|], n)
  {
    if n == 0 {
      return [Progress(s, 0, Start(|plan.slots|, s.tasks))], [];
    }
    gs, es := PublishPhase(w, plan, s, n - 1);
    var g := PublishOneMore(w, plan, s, gs[|es|], n - 1);
    HandlingSnoc(w, plan, gs, es, PublishNext, g);
    gs, es := gs + [g], es + [PublishNext];
  }

  /** The scheduler's bulk method: an execution of its goroutines, with nothing else in between. */
  lemma {:induction false} FanOutPhase(w: World, plan: Plan, gs: seq<Progress>, es: seq<Event>, moves: seq<Move>)
    returns (gs': seq<Progress>, es': seq<Event>)
    requires Fits(w, plan) && IsHandling(w, plan, gs, es)
    requires gs[|es|].next == |plan.now| && gs[|es|].fan.tasks == gs[|es|].state.tasks
    requires Sound(plan.slots, gs[|es|].fan) && Exec(plan.slots, gs[|es|].fan, moves).Some?
    ensures IsHandling(w, plan, gs', es') && gs'[0] == gs[0]
    ensures var g, g' := gs[|es|], gs'[|es'|];
            && g'.next == g.next && g'.fan == Exec(plan.slots, g.fan, moves).value
            && g'.state.tasks == g'.fan.tasks && g'.state.published == g.state.published
    decreases |moves|
  {
    if moves == [] {
      return gs, es;
    }
    var g, m := gs[|es|], moves[0];
    var fan := Do(plan.slots, g.fan, m);
    var state := if m.Finish? then AfterFinish(g.state, fan, m.i, plan.laterJobs[m.i]) else g.state;
    var next := Progress(state, g.next, fan);
    assert g.fan.(tasks := g.state.tasks) == g.fan;
    HandlingSnoc(w, plan, gs, es, Goroutine(m), next);
    gs', es' := FanOutPhase(w, plan, gs + [next], es + [Goroutine(m)], moves[1..]);
  }

  /**
   * What PubSubBackend.EnqueueBulk and CloudTasksScheduler.ScheduleBulk promise for the two
   * lists of a batch amounts to a completed handling with exactly their results and effects.
   */
  lemma BulkMethodsAreHandling(w: World, plan: Plan, s: State, moves: seq<Move>, tasks: Tasks,
                               results: seq<EnqueueResult>)
    returns (gs: seq<Progress>, es: seq<Event>)
    requires Fits(w, plan) && |results| == |plan.slots|
    requires Exec(plan.slots, Start(|plan.slots|, s.tasks), moves) == Some(Fan(tasks, results, |plan.slots|, {}))
    ensures IsHandling(w, plan, gs, es) && gs[0].state == s && Completed(plan, gs[|es|])
    ensures gs[|es|].fan.results == results && gs[|es|].state.tasks == tasks
    ensures Messages(gs[|es|].state.published)
         == Messages(s.published) + PubSub.EmittedAll(w.topics, w.marshal, plan.nowJobs, PublishFates(plan))
  {
    gs, es := PublishPhase(w, plan, s, |plan.now|);
    assert plan.nowJobs[..|plan.now|] == plan.nowJobs && PublishFates(plan)[..|plan.now|] == PublishFates(plan);
    gs, es := FanOutPhase(w, plan, gs, es, moves);
  }

  /**
   * For the classes themselves: if the jobs scheduled in a batch have distinct identifiers,
   * each result is what Enqueue would reply to that request alone, before the batch.
   */
  lemma BatchOfDistinctJobs(w: World, svc: Server.Services, reqs: seq<Server.Request>, ds: seq<Server.Decision>,
                            results: seq<Server.BulkResult>, enqueued: seq<Job>, scheduled: seq<Job>,
                            publishes: seq<PubSub.Fate>, creates: seq<CloudTasks.Fate>, before: Tasks,
                            moves: seq<Move>, after: Tasks, scheduleResults: seq<EnqueueResult>, i: nat)
    requires |reqs| == |ds| && i < |reqs| && Server.IsBulkOutcome(svc, reqs, ds, results, enqueued, scheduled)
    requires |publishes| == |enqueued| && |creates| == |scheduled| && CloudTasks.DistinctIds(scheduled)
    requires Server.BulkAnswers(svc.enqueueBulk, enqueued) == PubSub.ResultsOf(w.topics, w.marshal, enqueued, publishes)
    requires Server.BulkAnswers(svc.scheduleBulk, scheduled) == scheduleResults
    requires Exec(CloudTasks.SlotsFor(w.codec, w.queuePath, scheduled, creates), Start(|scheduled|, before), moves)
               == Some(Fan(after, scheduleResults, |scheduled|, {}))
    requires forall k :: 0 <= k < |enqueued| ==>
               svc.enqueue(enqueued[k]) == AsServiceError(PubSub.ErrorOf(PrepareJob(w, enqueued[k]), publishes[k]))
    requires forall k :: 0 <= k < |scheduled| ==>
               svc.schedule(scheduled[k]) == AsServiceError(Outcome(SlotOf(w, scheduled[k], creates[k]), before).error)
    ensures results[i] == Server.BulkView(reqs[i], ds[i], Server.Answer(svc, ds[i]), i)
  {
    BackendIsPointwise(w, enqueued, publishes, Server.BulkAnswers(svc.enqueueBulk, enqueued), svc.enqueue);
    SchedulerIsPointwise(w, scheduled, creates, before, moves, after, scheduleResults, svc.schedule);
    Server.BulkRefinesSingle(svc, reqs, ds, results, enqueued, scheduled, i);
  }
}
