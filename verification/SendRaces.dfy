/**
 Attempts of one send frame that are under way at once (`admitSend` in
 src/do/host-hub.ts): a frame resent over a new connection finds the mark of an attempt
 that still awaits D1 or its target, and starts another.
 */
module SendRaces {
  import opened Common
  import opened SendPath
  import HubModel
  import RoomModel

  /** An attempt that has marked the frame, or has its target's answer and has not stored it. */
  datatype Phase = Marked | Answered(outcome: SendOutcome)

  datatype Race = Race(base: World, under: map<nat, Phase>)

  datatype Step =
    | Begin(run: nat, checks: Checks)                // up to the first await
    | Refuse(run: nat, checks: Checks)               // a check that asks D1 or the room fails
    | Reach(run: nat, checks: Checks, now: int)      // the call runs at the target
    | Finish(run: nat)                               // its outcome is stored
    | Fail(run: nat)                                 // the call fails for the caller, whether it ran or not
    | LateCall(checks: Checks, now: int)             // a call runs whose caller is gone
    | Restart                                        // the sender's hub loses what is under way
    | Meanwhile(event: Event)                        // anything else at the target's hub
    | AtRoom(op: RoomModel.RoomOp)                   // or at the target room

  predicate IsAnswered(w: World, id: string) {
    id in w.sends && !w.sends[id].Processing?
  }

  ghost predicate Enabled(r: Race, id: string, target: Target, step: Step) {
    match step
    case Begin(run, _) => run !in r.under
    case Refuse(run, checks) => run in r.under && r.under[run].Marked? && LateRefusal(target, checks).Some?
    case Reach(run, _, _) => run in r.under && r.under[run].Marked?
    case Finish(run) => run in r.under && r.under[run].Answered?
    case Fail(run) => run in r.under
    case Meanwhile(event) => !event.Retry? && Allowed(r.base, event)
    case _ => true
  }

  function Store(w: World, id: string, outcome: SendOutcome): World {
    w.(sends := w.sends[id := Stored(outcome)])
  }

  function Started(r: Race, id: string, run: nat, checks: Checks): Race {
    if IsAnswered(r.base, id) then r
    else if EarlyRefusal(checks).Some? then r.(base := Store(r.base, id, Nak(EarlyRefusal(checks).value)))
    else Race(r.base.(sends := r.base.sends[id := Processing]), r.under[run := Marked])
  }

  ghost function Next(r: Race, id: string, target: Target, step: Step): Race
    requires Enabled(r, id, target, step)
  {
    match step
    case Begin(run, checks) => Started(r, id, run, checks)
    case Refuse(run, checks) => Race(Store(r.base, id, Nak(LateRefusal(target, checks).value)), r.under - {run})
    case Reach(run, checks, now) =>
      var (base, outcome) := Effect(r.base, target, checks, now);
      Race(base, r.under[run := Answered(outcome)])
    case Finish(run) => Race(Store(r.base, id, r.under[run].outcome), r.under - {run})
    case Fail(run) => Race(CallFailed(r.base, id, target).0, r.under - {run})
    case LateCall(checks, now) => r.(base := Effect(r.base, target, checks, now).0)
    case Restart => r.(under := map[])
    case Meanwhile(event) => r.(base := Happens(r.base, id, target, event))
    case AtRoom(op) => r.(base := r.base.(room := RoomModel.Apply(r.base.room, op)))
  }

  ghost predicate EnabledRun(r: Race, id: string, target: Target, steps: seq<Step>)
    decreases |steps|
  {
    steps == [] || (Enabled(r, id, target, steps[0]) && EnabledRun(Next(r, id, target, steps[0]), id, target, steps[1..]))
  }

  ghost function RunSteps(r: Race, id: string, target: Target, steps: seq<Step>): Race
    requires EnabledRun(r, id, target, steps)
    decreases |steps|
  {
    if steps == [] then r else RunSteps(Next(r, id, target, steps[0]), id, target, steps[1..])
  }

  lemma FirstThenRest(r: Race, id: string, target: Target, step: Step, rest: seq<Step>)
    requires Enabled(r, id, target, step) && EnabledRun(Next(r, id, target, step), id, target, rest)
    ensures EnabledRun(r, id, target, [step] + rest)
    ensures RunSteps(r, id, target, [step] + rest) == RunSteps(Next(r, id, target, step), id, target, rest)
  {
    assert ([step] + rest)[0] == step && ([step] + rest)[1..] == rest;
  }

  /** With nothing in between, the parts are an attempt that completes. */
  lemma PartsMakeAttempt(r: Race, run: nat, id: string, target: Target, checks: Checks, now: int)
    requires run !in r.under
    ensures var w' := Attempt(r.base, id, target, checks, now, Completes).0;
            var begun := Next(r, id, target, Begin(run, checks));
            if run !in begun.under then begun == r.(base := w')
            else if LateRefusal(target, checks).Some? then Next(begun, id, target, Refuse(run, checks)) == r.(base := w')
            else Next(Next(begun, id, target, Reach(run, checks, now)), id, target, Finish(run)) == r.(base := w')
  {
    assert r.under[run := Marked] - {run} == r.under;
    forall outcome ensures r.under[run := Marked][run := Answered(outcome)] - {run} == r.under {
    }
  }

  // ---------------------------------------------------------------- when a stored answer stands

  /** The attempt can still store another answer; a failed call to a room stores one of its own. */
  predicate CanReplace(target: Target, stored: SendState, phase: Phase) {
    phase.Marked? || Stored(phase.outcome) != stored || (target.ToRoom? && stored != Nacked("not_member"))
  }

  ghost predicate Racing(r: Race, id: string, target: Target)
    requires id in r.base.sends
  {
    exists run :: run in r.under && CanReplace(target, r.base.sends[id], r.under[run])
  }

  lemma StepKeepsAnswer(r: Race, id: string, target: Target, step: Step)
    requires Enabled(r, id, target, step) && IsAnswered(r.base, id) && !Racing(r, id, target)
    ensures var r' := Next(r, id, target, step);
            id in r'.base.sends && r'.base.sends[id] == r.base.sends[id] && !Racing(r', id, target)
  {
    var r' := Next(r, id, target, step);
    assert !step.Reach? && !step.Refuse?;
    forall run | run in r'.under ensures run in r.under && r'.under[run] == r.under[run] {
    }
  }

  lemma {:induction false} AnswerStands(r: Race, id: string, target: Target, steps: seq<Step>)
    requires EnabledRun(r, id, target, steps) && IsAnswered(r.base, id) && !Racing(r, id, target)
    ensures var w' := RunSteps(r, id, target, steps).base; id in w'.sends && w'.sends[id] == r.base.sends[id]
    decreases |steps|
  {
    if steps != [] {
      StepKeepsAnswer(r, id, target, steps[0]);
      AnswerStands(Next(r, id, target, steps[0]), id, target, steps[1..]);
    }
  }

  ghost predicate CanChange(r: Race, id: string, target: Target)
    requires id in r.base.sends
  {
    exists steps :: EnabledRun(r, id, target, steps)
                    && !(id in RunSteps(r, id, target, steps).base.sends && RunSteps(r, id, target, steps).base.sends[id] == r.base.sends[id])
  }

  const GONE: Checks := GOOD.(connected := false)
  const NO_MEMBER: Checks := GOOD.(targetExists := false)

  lemma OneStepChanges(r: Race, id: string, target: Target, step: Step)
    requires id in r.base.sends && Enabled(r, id, target, step)
    requires var w' := Next(r, id, target, step).base; id in w'.sends && w'.sends[id] != r.base.sends[id]
    ensures CanChange(r, id, target)
  {
    FirstThenRest(r, id, target, step, []);
  }

  lemma AnsweredReplaces(r: Race, id: string, target: Target, run: nat)
    requires IsAnswered(r.base, id) && run in r.under && r.under[run].Answered? && CanReplace(target, r.base.sends[id], r.under[run])
    ensures CanChange(r, id, target)
  {
    OneStepChanges(r, id, target, if Stored(r.under[run].outcome) != r.base.sends[id] then Finish(run) else Fail(run));
  }

  lemma MarkedReplaces(r: Race, id: string, target: Target, run: nat)
    requires IsAnswered(r.base, id) && run in r.under && r.under[run].Marked?
    ensures CanChange(r, id, target)
  {
    if r.base.sends[id] != Nacked("no_route") {
      OneStepChanges(r, id, target, Refuse(run, GONE));
    } else if target.ToRoom? {
      assert "no_route" != "not_member" by {
        assert |"no_route"| != |"not_member"|;
      }
      OneStepChanges(r, id, target, Refuse(run, NO_MEMBER));
    } else {
      var r1 := Next(r, id, target, Reach(run, GOOD, 0));
      assert Next(r1, id, target, Finish(run)).base.sends[id] == Acked;
      FirstThenRest(r1, id, target, Finish(run), []);
      FirstThenRest(r, id, target, Reach(run, GOOD, 0), [Finish(run)] + []);
    }
  }

  /**
   A stored answer stays whatever happens exactly when no other attempt of the frame is
   under way that can still store another one.
   */
  lemma AnswerStandsExact(r: Race, id: string, target: Target)
    requires IsAnswered(r.base, id)
    ensures CanChange(r, id, target) <==> Racing(r, id, target)
  {
    if run :| run in r.under && CanReplace(target, r.base.sends[id], r.under[run]) {
      if r.under[run].Marked? {
        MarkedReplaces(r, id, target, run);
      } else {
        AnsweredReplaces(r, id, target, run);
      }
    } else {
      forall steps | EnabledRun(r, id, target, steps)
        ensures id in RunSteps(r, id, target, steps).base.sends && RunSteps(r, id, target, steps).base.sends[id] == r.base.sends[id]
      {
        AnswerStands(r, id, target, steps);
      }
    }
  }

  // ---------------------------------------------------------------- it does happen

  const START: Race := Race(World(map[], HubModel.EMPTY, RoomModel.EMPTY), map[])

  function BothStarted(id: string): Race {
    START.(base := START.base.(sends := map[id := Processing]), under := map[0 := Marked, 1 := Marked])
  }

  lemma TwoStart(id: string, target: Target)
    ensures Next(Next(START, id, target, Begin(0, GOOD)), id, target, Begin(1, GOOD)) == BothStarted(id)
  {
  }

  /** Two attempts are under way: the first is acked, and the second, refused by D1, replaces the ack. */
  lemma AckReplaced(input: HubModel.DeliveryInput, id: string)
    ensures var target := ToAgent(input);
            var r1 := Next(BothStarted(id), id, target, Reach(0, GOOD, 0));
            var r2 := Next(r1, id, target, Finish(0));
            && id in r2.base.sends && r2.base.sends[id] == Acked && Enabled(r2, id, target, Refuse(1, GONE))
            && Next(r2, id, target, Refuse(1, GONE)).base.sends == map[id := Nacked("no_route")]
            && HubModel.IsQueued(Next(r2, id, target, Refuse(1, GONE)).base.hub, Key(input))
  {
  }

  /** And the reverse: the first is refused, and the second gets through. */
  lemma NakReplaced(input: HubModel.DeliveryInput, id: string)
    ensures var target := ToAgent(input);
            var r1 := Next(BothStarted(id), id, target, Refuse(0, GONE));
            var r2 := Next(r1, id, target, Reach(1, GOOD, 0));
            && r1.base.sends == map[id := Nacked("no_route")]
            && Enabled(r2, id, target, Finish(1)) && Next(r2, id, target, Finish(1)).base.sends == map[id := Acked]
  {
  }

  // ---------------------------------------------------------------- and the target still gets one entry

  /** How many entries the frame's calls create at the target's hub. */
  ghost function EntriesOver(r: Race, id: string, target: Target, steps: seq<Step>): int
    requires EnabledRun(r, id, target, steps)
    decreases |steps|
  {
    if steps == [] then 0
    else
      var r' := Next(r, id, target, steps[0]);
      (if steps[0].Reach? || steps[0].LateCall? then r'.base.hub.sequence - r.base.hub.sequence else 0)
      + EntriesOver(r', id, target, steps[1..])
  }

  function RenamesOver(steps: seq<Step>, agent: string): nat {
    if steps == [] then 0
    else (if steps[0].Meanwhile? && RenamesAgent(steps[0].event, agent) then 1 else 0) + RenamesOver(steps[1..], agent)
  }

  lemma StepKeepsMarker(r: Race, id: string, target: Target, step: Step)
    requires target.ToAgent? && Enabled(r, id, target, step) && Key(target.input) in r.base.hub.markers
    requires step.Meanwhile? ==> !RenamesAgent(step.event, target.input.agent)
    ensures Key(target.input) in Next(r, id, target, step).base.hub.markers
  {
    if step.Meanwhile? && step.event.AtHub? {
      MarkerStays(r.base.hub, step.event.op, Key(target.input));
    }
  }

  /** However many attempts race, the target gets at most one entry, plus one for each rename of the recipient in between. */
  lemma {:induction false} AtMostOneEntryRacing(r: Race, id: string, target: Target, steps: seq<Step>)
    requires target.ToAgent? && !target.input.redelivery && EnabledRun(r, id, target, steps)
    ensures EntriesOver(r, id, target, steps) <=
            (if Key(target.input) in r.base.hub.markers then 0 else 1) + RenamesOver(steps, target.input.agent)
    decreases |steps|
  {
    if steps != [] {
      if Key(target.input) in r.base.hub.markers
         && !(steps[0].Meanwhile? && RenamesAgent(steps[0].event, target.input.agent)) {
        StepKeepsMarker(r, id, target, steps[0]);
      }
      AtMostOneEntryRacing(Next(r, id, target, steps[0]), id, target, steps[1..]);
    }
  }
}
