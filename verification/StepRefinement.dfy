/**
 The pool's own steps and the step runner agree: for everything a step can meet,
 the machine of module Dispatch has a run of worker `w` that does to its agent
 exactly what one call of `run_step` does, and leaves the rest alone.
 */
module StepRefinement {
  import opened Agents
  import opened Steps
  import opened Dispatch

  /** The worker's handler for a step that raised. */
  function Handled(r: (Block, Outcome)): Block {
    if r.1.Crashed? then With(r.0, Error) else r.0
  }

  /** Worker w past the step: the agent is as `run_step` leaves it, and nothing else has changed. */
  function Stepped(s: State, w: nat, world: World): State
    requires Holds(s, w) && s.workers[w].Entering?
  {
    var p := s.workers[w];
    var g := s.agents[p.a];
    var r := RunStep(g.block, world);
    s.(agents := s.agents[p.a := g.(block := Handled(r), entries := g.entries + 1)],
       workers := s.workers[w := Settling(p.a, p.left, p.before, r.0.calls > g.block.calls, r.1 == Returned(true))])
  }

  /** A state in which only worker w and its agent differ from s. */
  function Mid(s: State, w: nat, b: Block, pc: Worker): State
    requires Holds(s, w) && s.workers[w].Entering?
  {
    var a := s.workers[w].a;
    s.(agents := s.agents[a := s.agents[a].(block := b, entries := s.agents[a].entries + 1)],
       workers := s.workers[w := pc])
  }

  /** From the start of a call to the end of the step. */
  function CallLabels(b: Block, w: nat, a: Pid, world: World): seq<Label> {
    (if world.killed then [Outside(Kill(a))] else [])
    + if world.reply.Raised? then [By(w, CallRaised(world.reply.timeout)), By(w, Close)]
      else [By(w, CallReturned)] + EndLabels(if world.killed then With(b, Zombie) else b, w, world)
  }

  /** From the counted call to the end of the step. */
  function EndLabels(b: Block, w: nat, world: World): seq<Label> {
    if b.status.Zombie? then [By(w, Conclude(world.reply, world.sandboxOk))]
    else if world.afterRaised then [By(w, StepCrashed)] + [By(w, Close)]
    else
      [By(w, Conclude(world.reply, world.sandboxOk))]
      + if Conclusion(b.kind, world.reply, world.sandboxOk).None? then [] else [By(w, Close)]
  }

  function Labels(b: Block, w: nat, a: Pid, world: World): seq<Label> {
    [By(w, Enter(world.gateOpen))]
    + if IsTerminal(b.status) then []
      else if Refused(b) || (b.kind.Coder? && !world.gateOpen) then [By(w, Close)]
      else
        [By(w, Mark)]
        + AssembleLabels(b, w, a, world)
  }

  lemma {:induction false} Chain(c: Config, s: State, l: Label, t: State, ls: seq<Label>, u: State)
    requires Enabled(s, l) && Apply(c, s, l) == t && Runs(c, t, ls, u)
    ensures Runs(c, s, [l] + ls, u)
  {
    assert ([l] + ls)[0] == l && ([l] + ls)[1..] == ls;
  }

  lemma {:induction false} Closes(c: Config, s: State, w: nat, b: Block, charged: bool, to: Status)
    requires Holds(s, w) && s.workers[w].Entering?
    ensures var p := s.workers[w];
      Runs(c, Mid(s, w, b, Closing(p.a, p.left, p.before, charged, to)), [By(w, Close)],
           Mid(s, w, With(b, to), Settling(p.a, p.left, p.before, charged, false)))
  {
    var p := s.workers[w];
    var m := Mid(s, w, b, Closing(p.a, p.left, p.before, charged, to));
    var t := Mid(s, w, With(b, to), Settling(p.a, p.left, p.before, charged, false));
    assert Apply(c, m, By(w, Close)).agents == t.agents;
    assert Apply(c, m, By(w, Close)).workers == t.workers;
    assert By(w, Close) == [By(w, Close)][0] && [By(w, Close)][1..] == [];
  }

  lemma {:induction false} Raises(c: Config, s: State, w: nat, b: Block, from: Worker, m: Act, to: Status)
    requires Holds(s, w) && s.workers[w].Entering?
    requires var p := s.workers[w]; from == Assembling(p.a, p.left, p.before) || from == Calling(p.a, p.left, p.before)
    requires from.Assembling? ==> m.ContextRaised? && to == Failure(m.timeout)
    requires from.Calling? ==> m.CallRaised? && to == Failure(m.timeout)
    ensures var p := s.workers[w];
      Runs(c, Mid(s, w, b, from), [By(w, m), By(w, Close)],
           Mid(s, w, With(b, to), Settling(p.a, p.left, p.before, false, false)))
  {
    var p := s.workers[w];
    var t := Mid(s, w, b, Closing(p.a, p.left, p.before, false, to));
    Closes(c, s, w, b, false, to);
    assert Apply(c, Mid(s, w, b, from), By(w, m)).workers == t.workers;
    Chain(c, Mid(s, w, b, from), By(w, m), t, [By(w, Close)],
          Mid(s, w, With(b, to), Settling(p.a, p.left, p.before, false, false)));
    assert [By(w, m)] + [By(w, Close)] == [By(w, m), By(w, Close)];
  }

  /** A call that returned, from the charge to the end of the step. */
  lemma {:induction false} Concludes(c: Config, s: State, w: nat, b: Block, world: World)
    requires Holds(s, w) && s.workers[w].Entering? && !world.reply.Raised?
    requires b.status.Zombie? || !world.afterRaised
    ensures var p := s.workers[w];
      var (r, out) := AfterCall(b, world);
      Runs(c, Mid(s, w, b, Charged(p.a, p.left, p.before)), EndLabels(b, w, world),
           Mid(s, w, r, Settling(p.a, p.left, p.before, true, out == Returned(true))))
  {
    var p, l := s.workers[w], By(w, Conclude(world.reply, world.sandboxOk));
    var (r, out) := AfterCall(b, world);
    var to := Conclusion(b.kind, world.reply, world.sandboxOk);
    var m, u := Mid(s, w, b, Charged(p.a, p.left, p.before)),
                Mid(s, w, r, Settling(p.a, p.left, p.before, true, out == Returned(true)));
    if b.status.Zombie? || to.None? {
      assert Apply(c, m, l).agents == u.agents;
      assert Apply(c, m, l).workers == u.workers;
      Chain(c, m, l, u, [], u);
      assert EndLabels(b, w, world) == [l] + [];
    } else {
      var t := Mid(s, w, Advance(b), Closing(p.a, p.left, p.before, true, to.value));
      assert Apply(c, m, l).agents == t.agents;
      assert Apply(c, m, l).workers == t.workers;
      Closes(c, s, w, Advance(b), true, to.value);
      Chain(c, m, l, t, [By(w, Close)], u);
    }
  }

  /** The same when handling the reply raised. */
  lemma {:induction false} CrashesLate(c: Config, s: State, w: nat, b: Block, world: World)
    requires Holds(s, w) && s.workers[w].Entering? && !b.status.Zombie? && world.afterRaised
    ensures var p := s.workers[w];
      Runs(c, Mid(s, w, b, Charged(p.a, p.left, p.before)), EndLabels(b, w, world),
           Mid(s, w, With(b, Error), Settling(p.a, p.left, p.before, true, false)))
  {
    var p := s.workers[w];
    var m, t := Mid(s, w, b, Charged(p.a, p.left, p.before)), Mid(s, w, b, Closing(p.a, p.left, p.before, true, Error));
    assert Apply(c, m, By(w, StepCrashed)).workers == t.workers;
    Closes(c, s, w, b, true, Error);
    Chain(c, m, By(w, StepCrashed), t, [By(w, Close)],
          Mid(s, w, With(b, Error), Settling(p.a, p.left, p.before, true, false)));
  }

  lemma {:induction false} Kills(c: Config, s: State, w: nat, b: Block)
    requires Holds(s, w) && s.workers[w].Entering?
    ensures var p := s.workers[w];
      var m := Mid(s, w, b, Calling(p.a, p.left, p.before));
      Enabled(m, Outside(Kill(p.a)))
      && Apply(c, m, Outside(Kill(p.a))) == Mid(s, w, With(b, Zombie), Calling(p.a, p.left, p.before))
  {
    var p := s.workers[w];
    var m := Mid(s, w, b, Calling(p.a, p.left, p.before));
    assert Apply(c, m, Outside(Kill(p.a))).agents == Mid(s, w, With(b, Zombie), Calling(p.a, p.left, p.before)).agents;
  }

  /** What the call and everything after it come to. */
  function CallResult(k: Block, world: World): (Block, Outcome) {
    if world.reply.Raised? then (With(k, Failure(world.reply.timeout)), Returned(false))
    else AfterCall(Charge(k), world)
  }

  /** The call and what follows it, once any kill has landed. */
  lemma {:induction false} Answers(c: Config, s: State, w: nat, b: Block, world: World)
    requires Holds(s, w) && s.workers[w].Entering? && !world.killed
    ensures var p, o := s.workers[w], CallResult(b, world);
      Runs(c, Mid(s, w, b, Calling(p.a, p.left, p.before)), CallLabels(b, w, p.a, world),
           Mid(s, w, Handled(o), Settling(p.a, p.left, p.before, !world.reply.Raised?, o.1 == Returned(true))))
  {
    var p, o := s.workers[w], CallResult(b, world);
    var m := Mid(s, w, b, Calling(p.a, p.left, p.before));
    if world.reply.Raised? {
      Raises(c, s, w, b, Calling(p.a, p.left, p.before), CallRaised(world.reply.timeout), Failure(world.reply.timeout));
      assert CallLabels(b, w, p.a, world) == [By(w, CallRaised(world.reply.timeout)), By(w, Close)];
    } else {
      var t := Mid(s, w, Charge(b), Charged(p.a, p.left, p.before));
      assert Apply(c, m, By(w, CallReturned)).agents == t.agents;
      assert Apply(c, m, By(w, CallReturned)).workers == t.workers;
      if !b.status.Zombie? && world.afterRaised {
        CrashesLate(c, s, w, Charge(b), world);
      } else {
        Concludes(c, s, w, Charge(b), world);
      }
      var rest := EndLabels(Charge(b), w, world);
      Chain(c, m, By(w, CallReturned), t, rest,
            Mid(s, w, Handled(o), Settling(p.a, p.left, p.before, true, o.1 == Returned(true))));
      assert [By(w, CallReturned)] + rest == CallLabels(b, w, p.a, world);
    }
  }

  lemma {:induction false} Calls(c: Config, s: State, w: nat, b: Block, world: World)
    requires Holds(s, w) && s.workers[w].Entering?
    ensures var p, o := s.workers[w], CallResult(if world.killed then With(b, Zombie) else b, world);
      Runs(c, Mid(s, w, b, Calling(p.a, p.left, p.before)), CallLabels(b, w, p.a, world),
           Mid(s, w, Handled(o), Settling(p.a, p.left, p.before, !world.reply.Raised?, o.1 == Returned(true))))
  {
    if !world.killed {
      Answers(c, s, w, b, world);
    } else {
      var p, k, calm := s.workers[w], With(b, Zombie), world.(killed := false);
      var o := CallResult(k, world);
      Kills(c, s, w, b);
      Answers(c, s, w, k, calm);
      Chain(c, Mid(s, w, b, Calling(p.a, p.left, p.before)), Outside(Kill(p.a)),
            Mid(s, w, k, Calling(p.a, p.left, p.before)), CallLabels(k, w, p.a, calm),
            Mid(s, w, Handled(o), Settling(p.a, p.left, p.before, !world.reply.Raised?, o.1 == Returned(true))));
      assert CallLabels(b, w, p.a, world) == [Outside(Kill(p.a))] + CallLabels(k, w, p.a, calm);
    }
  }

  function AssembleLabels(b: Block, w: nat, a: Pid, world: World): seq<Label> {
    if world.contextRaised.Some? then
      [By(w, ContextRaised(b.kind.Plain? && world.contextRaised.value)), By(w, Close)]
    else [By(w, Call)] + CallLabels(With(b, Running), w, a, world)
  }

  /** The step from assembling the context on. */
  lemma {:induction false} Assembles(c: Config, s: State, w: nat, b: Block, world: World)
    requires Holds(s, w) && s.workers[w].Entering?
    requires !IsTerminal(b.status) && !Refused(b) && (b.kind.Coder? ==> world.gateOpen)
    ensures var p := s.workers[w];
      var r := RunStep(b, world);
      Runs(c, Mid(s, w, With(b, Running), Assembling(p.a, p.left, p.before)), AssembleLabels(b, w, p.a, world),
           Mid(s, w, Handled(r), Settling(p.a, p.left, p.before, r.0.calls > b.calls, r.1 == Returned(true))))
  {
    var p, run, r := s.workers[w], With(b, Running), RunStep(b, world);
    if world.contextRaised.Some? {
      var timeout := b.kind.Plain? && world.contextRaised.value;
      Raises(c, s, w, run, Assembling(p.a, p.left, p.before), ContextRaised(timeout), Failure(timeout));
    } else {
      var t, v := Mid(s, w, run, Assembling(p.a, p.left, p.before)), Mid(s, w, run, Calling(p.a, p.left, p.before));
      assert Apply(c, t, By(w, Call)).workers == v.workers;
      Calls(c, s, w, run, world);
      Chain(c, t, By(w, Call), v, CallLabels(run, w, p.a, world),
            Mid(s, w, Handled(r), Settling(p.a, p.left, p.before, r.0.calls > b.calls, r.1 == Returned(true))));
    }
  }

  lemma {:induction false} Marks(c: Config, s: State, w: nat, b: Block)
    requires Holds(s, w) && s.workers[w].Entering?
    ensures var p := s.workers[w];
      var m := Mid(s, w, b, Marking(p.a, p.left, p.before));
      && Enabled(m, By(w, Mark))
      && Apply(c, m, By(w, Mark)) == Mid(s, w, With(b, Running), Assembling(p.a, p.left, p.before))
  {
    var p := s.workers[w];
    var m := Mid(s, w, b, Marking(p.a, p.left, p.before));
    var t := Mid(s, w, With(b, Running), Assembling(p.a, p.left, p.before));
    assert Apply(c, m, By(w, Mark)).agents == t.agents;
    assert Apply(c, m, By(w, Mark)).workers == t.workers;
  }

  /** The machine realises `run_step`, whatever the step meets. */
  lemma {:induction false} PoolStepsRealiseRunStep(c: Config, s: State, w: nat, world: World)
    requires Holds(s, w) && s.workers[w].Entering?
    ensures var p := s.workers[w];
      Runs(c, s, Labels(s.agents[p.a].block, w, p.a, world), Stepped(s, w, world))
  {
    var p, u := s.workers[w], Stepped(s, w, world);
    var b, l := s.agents[p.a].block, By(w, Enter(world.gateOpen));
    if IsTerminal(b.status) {
      assert Apply(c, s, l) == u;
      Chain(c, s, l, u, [], u);
    } else if Refused(b) || (b.kind.Coder? && !world.gateOpen) {
      var t := Mid(s, w, b, Closing(p.a, p.left, p.before, false, Error));
      assert Apply(c, s, l) == t;
      Closes(c, s, w, b, false, Error);
      Chain(c, s, l, t, [By(w, Close)], u);
    } else {
      var t := Mid(s, w, b, Marking(p.a, p.left, p.before));
      assert Apply(c, s, l) == t;
      Marks(c, s, w, b);
      Assembles(c, s, w, b, world);
      var rest := AssembleLabels(b, w, p.a, world);
      Chain(c, t, By(w, Mark), Mid(s, w, With(b, Running), Assembling(p.a, p.left, p.before)), rest, u);
      Chain(c, s, l, t, [By(w, Mark)] + rest, u);
    }
  }
}
