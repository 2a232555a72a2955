/**
 When a posted reply stays as it is and is not posted again, with posts under way at any
 time (src/do/integration.ts): `chatReply` and the alarm's retries each await the
 connector with copies of the reply and its delivery.
 */
module Reposts {
  import opened Common
  import opened IntegrationModel
  import opened Awaits
  import IntegrationLaws
  import Redelivery

  predicate IsPosted(w: World, id: string) {
    id in w.s.replies && w.s.replies[id].postedAt.Some?
  }

  /** A post of the reply under way, one that will follow the check of an answer, or a listing to retry it from. */
  ghost predicate StillPosting(w: World, id: string) {
    || (exists run :: run in w.pending && w.pending[run].id == id && (w.pending[run].Checking? || w.pending[run].Posting?))
    || (exists list :: list in w.listed && id in w.listed[list].replies && Retries(w.listed[list].replies[id], w.listed[list].now))
  }

  /** Whether the step is a post of the reply that the connector accepts. */
  ghost predicate Posts(w: World, step: Step, id: string)
    requires Enabled(w, step)
  {
    match step
    case EndPost(run, error, _) => w.pending[run].id == id && error.None?
    case Do(op) => (op.DoReply? || op.DoAlarm?) && id in IntegrationLaws.Cancels(w.s, op)
    case _ => false
  }

  ghost function PostsOver(w: World, steps: seq<Step>, id: string): nat
    requires EnabledRun(w, steps)
    decreases |steps|
  {
    if steps == [] then 0
    else (if Posts(w, steps[0], id) then 1 else 0) + PostsOver(Next(w, steps[0]), steps[1..], id)
  }

  lemma {:induction false} OnlyDueArePosted(d: Deliveries, r: map<string, Reply>, ids: seq<string>, errors: map<string, string>, now: int)
    ensures forall id :: id in PostedBy(d, r, ids, errors, now) ==> id in r && Retries(r[id], now)
  {
    if ids != [] {
      OnlyDueArePosted(d, r, ids[..|ids| - 1], errors, now);
    }
  }

  lemma OpLeavesPosted(s: Integration, op: Op, id: string)
    requires id in s.replies && s.replies[id].postedAt.Some?
    ensures id in Apply(s, op).replies && Apply(s, op).replies[id] == s.replies[id]
    ensures op.DoReply? || op.DoAlarm? ==> id !in IntegrationLaws.Cancels(s, op)
  {
    IntegrationLaws.StepRepliesKept(s, op);
    if op.DoAlarm? {
      OnlyDueArePosted(s.deliveries, s.replies, op.env.listing.replies, op.env.replyErrors, op.now);
    }
  }

  lemma EndedLeavesPosted(s: Integration, p: Underway, step: Step, id: string)
    requires Fits(p, step) && id in s.replies && (p.id == id ==> !p.Checking? && !p.Posting?)
    ensures id in Ended(s, p, step).replies && Ended(s, p, step).replies[id] == s.replies[id]
  {
  }

  lemma StepLeavesPosted(w: World, step: Step, id: string)
    requires Enabled(w, step) && IsPosted(w, id) && !StillPosting(w, id)
    ensures var w' := Next(w, step);
            id in w'.s.replies && w'.s.replies[id] == w.s.replies[id] && !Posts(w, step, id)
  {
    if Ends(step) {
      EndedLeavesPosted(w.s, w.pending[step.run], step, id);
    } else if step.Do? {
      OpLeavesPosted(w.s, step.op, id);
    } else {
      assert Next(w, step).s.replies == w.s.replies;
    }
  }

  lemma StepStartsNoPost(w: World, step: Step, id: string)
    requires Enabled(w, step) && IsPosted(w, id) && !StillPosting(w, id)
    ensures !StillPosting(Next(w, step), id)
  {
    var w' := Next(w, step);
    forall run | run in w'.pending && w'.pending[run].id == id ensures !w'.pending[run].Checking? && !w'.pending[run].Posting? {
      PendingAfter(w, step, run);
      assert run in w.pending && w.pending[run].id == id ==> !w.pending[run].Checking? && !w.pending[run].Posting?;
    }
    ListsShowPosted(w, step, id);
  }

  lemma ListsShowPosted(w: World, step: Step, id: string)
    requires Enabled(w, step) && IsPosted(w, id) && !StillPosting(w, id)
    ensures var listed := Next(w, step).listed;
            forall list :: list in listed && id in listed[list].replies ==> !Retries(listed[list].replies[id], listed[list].now)
  {
  }

  lemma {:induction false} PostedStands(w: World, steps: seq<Step>, id: string)
    requires EnabledRun(w, steps) && IsPosted(w, id) && !StillPosting(w, id)
    ensures var s' := RunSteps(w, steps).s;
            id in s'.replies && s'.replies[id] == w.s.replies[id] && PostsOver(w, steps, id) == 0
    decreases |steps|
  {
    if steps != [] {
      StepLeavesPosted(w, steps[0], id);
      StepStartsNoPost(w, steps[0], id);
      PostedStands(Next(w, steps[0]), steps[1..], id);
    }
  }

  /** The continuation leaves the posted reply as it is and posts it no more. */
  ghost predicate LeavesPosted(w: World, steps: seq<Step>, id: string)
    requires EnabledRun(w, steps) && IsPosted(w, id)
  {
    var s' := RunSteps(w, steps).s;
    id in s'.replies && s'.replies[id] == w.s.replies[id] && PostsOver(w, steps, id) == 0
  }

  /** Some continuation does not. */
  ghost predicate Reposts(w: World, id: string)
    requires IsPosted(w, id)
  {
    exists steps :: EnabledRun(w, steps) && !LeavesPosted(w, steps, id)
  }

  lemma ThenRest(w: World, step: Step, rest: seq<Step>, id: string)
    requires Enabled(w, step) && EnabledRun(Next(w, step), rest)
    ensures EnabledRun(w, [step] + rest) && RunSteps(w, [step] + rest) == RunSteps(Next(w, step), rest)
    ensures PostsOver(w, [step] + rest, id) == (if Posts(w, step, id) then 1 else 0) + PostsOver(Next(w, step), rest, id)
  {
    assert ([step] + rest)[0] == step && ([step] + rest)[1..] == rest;
  }

  lemma PostingReposts(w: World, run: nat)
    requires run in w.pending && w.pending[run].Posting? && IsPosted(w, w.pending[run].id)
    ensures Reposts(w, w.pending[run].id)
  {
    var steps := [EndPost(run, None, 0)] + [];
    FirstThenRest(w, EndPost(run, None, 0), []);
    assert PostsOver(w, steps, w.pending[run].id) >= 1;
  }

  lemma CheckingReposts(w: World, run: nat)
    requires run in w.pending && w.pending[run].Checking? && IsPosted(w, w.pending[run].id)
    ensures Reposts(w, w.pending[run].id)
  {
    FirstThenRest(w, EndCheck(run, true, 0), []);
    assert !LeavesPosted(w, [EndCheck(run, true, 0)] + [], w.pending[run].id);
  }

  lemma ListedIsPosted(w: World, run: nat, list: nat, id: string, now: int)
    requires Enabled(w, BeginPost(run, list, id))
    ensures var steps := [BeginPost(run, list, id)] + ([EndPost(run, None, now)] + []);
            && EnabledRun(w, steps) && PostsOver(w, steps, id) == 1
            && var w' := RunSteps(w, steps);
               IsPosted(w', id) && w'.pending == w.pending && w'.s.deliveries.Keys == w.s.deliveries.Keys
  {
    var w1 := Next(w, BeginPost(run, list, id));
    assert w1.pending - {run} == w.pending;
    ThenRest(w1, EndPost(run, None, now), [], id);
    ThenRest(w, BeginPost(run, list, id), [EndPost(run, None, now)] + [], id);
  }

  lemma ListedReposts(w: World, list: nat, id: string)
    requires id in w.s.deliveries && IsPosted(w, id) && list in w.listed && id in w.listed[list].replies
    requires Retries(w.listed[list].replies[id], w.listed[list].now)
    ensures Reposts(w, id)
  {
    var run := GreaterThanAll(w.pending.Keys);
    ListedIsPosted(w, run, list, id, 0);
  }

  /**
   A posted reply is neither changed nor posted again in any continuation exactly when no
   other post of it is under way: no answer still being checked, no post awaiting the
   connector, no listing of a retry that shows it unposted and due.
   */
  lemma PostedStandsExact(w: World, id: string)
    requires Sound(w) && IsPosted(w, id)
    ensures Reposts(w, id) <==> StillPosting(w, id)
  {
    if run :| run in w.pending && w.pending[run].id == id && (w.pending[run].Checking? || w.pending[run].Posting?) {
      if w.pending[run].Posting? {
        PostingReposts(w, run);
      } else {
        CheckingReposts(w, run);
      }
    } else if list :| list in w.listed && id in w.listed[list].replies && Retries(w.listed[list].replies[id], w.listed[list].now) {
      ListedReposts(w, list, id);
    } else {
      forall steps | EnabledRun(w, steps) ensures LeavesPosted(w, steps, id) {
        PostedStands(w, steps, id);
      }
    }
  }

  // ---------------------------------------------------------------- it does happen

  /** The target's answer is being posted when the alarm retries it, successfully. */
  function RetriedMeanwhile(id: string, caller: string): seq<Step> {
    [BeginReply(0, id, caller, "done")] + ([EndCheck(0, true, 2)] + ([ListReplies(0, 3)] + ([BeginPost(1, 0, id)] + ([EndPost(1, None, 4)] + []))))
  }

  /** Then the first post fails, and the alarm retries once more. */
  function FailedAfterwards(id: string): seq<Step> {
    [EndPost(0, Some("timeout"), 5)] + ([ListReplies(1, 60_005)] + ([BeginPost(1, 1, id)] + ([EndPost(1, None, 60_006)] + [])))
  }

  ghost predicate FreshlyDispatched(w: World, id: string) {
    w.pending == map[] && w.s.replies == map[] && id in w.s.deliveries
  }

  lemma AnswerRecorded(w: World, id: string, caller: string)
    requires FreshlyDispatched(w, id) && w.s.deliveries[id].targetAddr == caller
    ensures Enabled(w, BeginReply(0, id, caller, "done"))
    ensures var w1 := Next(w, BeginReply(0, id, caller, "done"));
            && Enabled(w1, EndCheck(0, true, 2)) && !Posts(w1, EndCheck(0, true, 2), id)
            && Awaiting(Next(w1, EndCheck(0, true, 2)), id, NewReply(caller, "done", 2))
  {
  }

  /** The only thing under way is the first post of the recorded reply. */
  ghost predicate Awaiting(w: World, id: string, reply: Reply) {
    && w.pending.Keys == {0} && w.pending[0].Posting? && w.pending[0].id == id && w.pending[0].first && w.pending[0].reply == reply
    && w.s.replies == map[id := reply] && id in w.s.deliveries && Retries(reply, 3)
  }

  lemma RetryPosts(w: World, id: string, reply: Reply)
    requires Awaiting(w, id, reply)
    ensures var steps := [ListReplies(0, 3)] + ([BeginPost(1, 0, id)] + ([EndPost(1, None, 4)] + []));
            && EnabledRun(w, steps) && PostsOver(w, steps, id) == 1
            && var w' := RunSteps(w, steps);
               IsPosted(w', id) && w'.pending == w.pending && id in w'.s.deliveries
  {
    ListedIsPosted(Next(w, ListReplies(0, 3)), 1, 0, id, 4);
    ThenRest(w, ListReplies(0, 3), [BeginPost(1, 0, id)] + ([EndPost(1, None, 4)] + []), id);
  }

  lemma RetriedMeanwhilePosts(w: World, id: string, caller: string)
    requires FreshlyDispatched(w, id) && w.s.deliveries[id].targetAddr == caller
    ensures EnabledRun(w, RetriedMeanwhile(id, caller)) && PostsOver(w, RetriedMeanwhile(id, caller), id) == 1
    ensures var w' := RunSteps(w, RetriedMeanwhile(id, caller));
            && IsPosted(w', id) && w'.pending.Keys == {0} && w'.pending[0].Posting? && w'.pending[0].id == id
            && w'.pending[0].first && w'.pending[0].reply == NewReply(caller, "done", 2) && id in w'.s.deliveries
  {
    AnswerRecorded(w, id, caller);
    var w1 := Next(w, BeginReply(0, id, caller, "done"));
    var rest := [ListReplies(0, 3)] + ([BeginPost(1, 0, id)] + ([EndPost(1, None, 4)] + []));
    RetryPosts(Next(w1, EndCheck(0, true, 2)), id, NewReply(caller, "done", 2));
    ThenRest(w1, EndCheck(0, true, 2), rest, id);
    ThenRest(w, BeginReply(0, id, caller, "done"), [EndCheck(0, true, 2)] + rest, id);
  }

  lemma RetryPostsAgain(w: World, id: string)
    requires w.pending == map[] && id in w.s.deliveries && id in w.s.replies && Retries(w.s.replies[id], 60_005)
    ensures var steps := [ListReplies(1, 60_005)] + ([BeginPost(1, 1, id)] + ([EndPost(1, None, 60_006)] + []));
            EnabledRun(w, steps) && PostsOver(w, steps, id) == 1
  {
    ListedIsPosted(Next(w, ListReplies(1, 60_005)), 1, 1, id, 60_006);
    ThenRest(w, ListReplies(1, 60_005), [BeginPost(1, 1, id)] + ([EndPost(1, None, 60_006)] + []), id);
  }

  lemma FailedAfterwardsPosts(w: World, id: string)
    requires w.pending.Keys == {0} && w.pending[0].Posting? && w.pending[0].id == id && id in w.s.deliveries
    requires w.pending[0].reply.postedAt.None? && IsPosted(w, id)
    ensures EnabledRun(w, FailedAfterwards(id)) && PostsOver(w, FailedAfterwards(id), id) == 1
    ensures !IsPosted(Next(w, EndPost(0, Some("timeout"), 5)), id)
  {
    var w1 := Next(w, EndPost(0, Some("timeout"), 5));
    RetryPostsAgain(w1, id);
    ThenRest(w, EndPost(0, Some("timeout"), 5),
             [ListReplies(1, 60_005)] + ([BeginPost(1, 1, id)] + ([EndPost(1, None, 60_006)] + [])), id);
  }

  /** The reply is posted by the retry, reads unposted when the first post fails, and is posted once more. */
  lemma PostedTwice(e: Event, id: string, limit: nat, agent: string)
    ensures EnabledRun(Configured(limit, agent), Redelivery.Dispatch(e, id, agent))
    ensures var w := RunSteps(Configured(limit, agent), Redelivery.Dispatch(e, id, agent));
            && Enabled(w, End(0, None, 1))
            && var w1 := Next(w, End(0, None, 1));
               && EnabledRun(w1, RetriedMeanwhile(id, e.targetAddr)) && PostsOver(w1, RetriedMeanwhile(id, e.targetAddr), id) == 1
               && var w2 := RunSteps(w1, RetriedMeanwhile(id, e.targetAddr));
                  && EnabledRun(w2, FailedAfterwards(id)) && PostsOver(w2, FailedAfterwards(id), id) == 1
                  && IsPosted(w2, id) && !IsPosted(Next(w2, EndPost(0, Some("timeout"), 5)), id)
  {
    Redelivery.DispatchEnded(e, id, limit, agent);
    var w1 := Next(RunSteps(Configured(limit, agent), Redelivery.Dispatch(e, id, agent)), End(0, None, 1));
    RetriedMeanwhilePosts(w1, id, e.targetAddr);
    FailedAfterwardsPosts(RunSteps(w1, RetriedMeanwhile(id, e.targetAddr)), id);
  }

  /** An answer is recorded and posted. */
  function GoesOut(run: nat): seq<Step> {
    [EndCheck(run, true, 2)] + ([EndPost(run, None, 3)] + [])
  }

  lemma AnswerGoesOut(w: World, run: nat)
    requires run in w.pending && w.pending[run].Checking?
    ensures EnabledRun(w, GoesOut(run)) && PostsOver(w, GoesOut(run), w.pending[run].id) == 1
    ensures var w' := RunSteps(w, GoesOut(run));
            && w'.pending == w.pending - {run}
            && IsPosted(w', w.pending[run].id) && w'.s.replies[w.pending[run].id].message == w.pending[run].message
  {
    var id := w.pending[run].id;
    var w1 := Next(w, EndCheck(run, true, 2));
    assert w1.pending - {run} == w.pending - {run};
    ThenRest(w1, EndPost(run, None, 3), [], id);
    ThenRest(w, EndCheck(run, true, 2), [EndPost(run, None, 3)] + [], id);
  }

  lemma BothChecked(w: World, id: string, caller: string)
    requires FreshlyDispatched(w, id) && w.s.deliveries[id].targetAddr == caller
    ensures Enabled(w, BeginReply(0, id, caller, "first"))
    ensures var w1 := Next(w, BeginReply(0, id, caller, "first"));
            && Enabled(w1, BeginReply(1, id, caller, "second"))
            && var w2 := Next(w1, BeginReply(1, id, caller, "second"));
               && w2.pending.Keys == {0, 1} && w2.pending[0].Checking? && w2.pending[1].Checking?
               && w2.pending[0].id == id == w2.pending[1].id && w2.pending[1].message == "second"
  {
  }

  /** Two answers are checked at once: both are posted, and the second overwrites the first. */
  lemma SecondAnswerOverwrites(e: Event, id: string, limit: nat, agent: string)
    ensures EnabledRun(Configured(limit, agent), Redelivery.Dispatch(e, id, agent))
    ensures var w := RunSteps(Configured(limit, agent), Redelivery.Dispatch(e, id, agent));
            && Enabled(w, End(0, None, 1))
            && var w1 := Next(w, End(0, None, 1));
               && Enabled(w1, BeginReply(0, id, e.targetAddr, "first"))
               && var w2 := Next(w1, BeginReply(0, id, e.targetAddr, "first"));
                  && Enabled(w2, BeginReply(1, id, e.targetAddr, "second"))
                  && var w3 := Next(w2, BeginReply(1, id, e.targetAddr, "second"));
                     && EnabledRun(w3, GoesOut(0)) && PostsOver(w3, GoesOut(0), id) == 1
                     && var w4 := RunSteps(w3, GoesOut(0));
                        && IsPosted(w4, id) && EnabledRun(w4, GoesOut(1)) && PostsOver(w4, GoesOut(1), id) == 1
                        && var s' := RunSteps(w4, GoesOut(1)).s; id in s'.replies && s'.replies[id].message == "second"
  {
    Redelivery.DispatchEnded(e, id, limit, agent);
    var w1 := Next(RunSteps(Configured(limit, agent), Redelivery.Dispatch(e, id, agent)), End(0, None, 1));
    BothChecked(w1, id, e.targetAddr);
    var w3 := Next(Next(w1, BeginReply(0, id, e.targetAddr, "first")), BeginReply(1, id, e.targetAddr, "second"));
    AnswerGoesOut(w3, 0);
    AnswerGoesOut(RunSteps(w3, GoesOut(0)), 1);
  }
}
