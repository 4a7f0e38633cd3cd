/** The deep Q-learning driver: episodes of at most `max_t` steps against the
    environment, score bookkeeping, the decaying exploration rate, train/eval
    gating and the early-stop rule.

    `Run` and `EpisodeSteps` are the reference definition of what the driver
    does, given the answers of its collaborators; `Dqn` and `PlayEpisode` are
    the imperative driver, proved to produce exactly that. */
module Training {
  import opened Collaborators
  import opened ScoreWindow
  import opened Exploration

  /** The driver's arguments (besides the agent and the environment). */
  datatype Config = Config(nEpisodes: int, maxT: int, epsStart: real, epsEnd: real,
                           epsDecay: real, train: bool)

  /** The collaborators' opaque answers: the agent's action choice, the
      environment's first observation per episode and its reply to each action. */
  datatype World = World(policy: Policy, initial: nat -> State, respond: Response)

  /** What the driver can observe of the agent: the transitions handed to its
      `step` and the number of actions it has chosen. */
  datatype AgentView = AgentView(memory: seq<Transition>, acted: nat)

  /** The agent after it chose an action for every one of `steps`, and, in
      train mode only, received every one of them through `step`. */
  function Absorb(v: AgentView, steps: seq<Transition>, train: bool): AgentView
  {
    AgentView(if train then v.memory + steps else v.memory, v.acted + |steps|)
  }

  /** The exploration rate during episode k + 1. */
  function Rate(cfg: Config, k: nat): real
  {
    EpsAt(cfg.train, cfg.epsStart, cfg.epsEnd, cfg.epsDecay, k)
  }

  /** The steps of (the rest of) one episode: `budget` more steps at most,
      starting in state `s` after the actions `taken`, ending early on the
      first step whose `done` is set. */
  function EpisodeSteps(w: World, episode: nat, taken: seq<Action>, v: AgentView, s: State,
                        eps: real, budget: int, train: bool): seq<Transition>
    decreases budget
  {
    if budget <= 0 then []
    else
      var t := FirstStep(w, episode, taken, v, s, eps);
      if t.done then [t]
      else [t] + EpisodeSteps(w, episode, taken + [t.action], Absorb(v, [t], train), t.nextState,
                              eps, budget - 1, train)
  }

  /** The next step: the agent chooses an action in state `s` and the
      environment answers it. */
  function FirstStep(w: World, episode: nat, taken: seq<Action>, v: AgentView, s: State,
                     eps: real): Transition
  {
    var a := w.policy(v.acted, v.memory, s, eps);
    var info := w.respond(episode, taken + [a]);
    Transition(s, a, info.reward, info.nextState, info.done)
  }

  /** The score of an episode: the sum of the rewards of its steps. */
  function RewardSum(steps: seq<Transition>): real
  {
    if steps == [] then 0.0 else RewardSum(steps[..|steps| - 1]) + steps[|steps| - 1].reward
  }

  /** The actions of a sequence of steps, in order. */
  function Actions(steps: seq<Transition>): (r: seq<Action>)
    ensures |r| == |steps|
    ensures forall j :: 0 <= j < |steps| ==> r[j] == steps[j].action
  {
    if steps == [] then [] else Actions(steps[..|steps| - 1]) + [steps[|steps| - 1].action]
  }

  /** All steps of all episodes, in order. */
  function Flatten(runs: seq<seq<Transition>>): seq<Transition>
  {
    if runs == [] then [] else Flatten(runs[..|runs| - 1]) + runs[|runs| - 1]
  }

  /** The score history: one score per finished episode, in episode order. */
  function Scores(runs: seq<seq<Transition>>): (r: seq<real>)
    ensures |r| == |runs|
    ensures forall k :: 0 <= k < |runs| ==> r[k] == RewardSum(runs[k])
  {
    if runs == [] then [] else Scores(runs[..|runs| - 1]) + [RewardSum(runs[|runs| - 1])]
  }

  /** The early-stop test after the episodes `runs`: train mode and a solved
      trailing window. */
  predicate StopsAfter(cfg: Config, runs: seq<seq<Transition>>)
  {
    cfg.train && Solved(Last(Scores(runs)))
  }

  /** The episode that follows the finished episodes `done`. */
  function NextEpisode(w: World, cfg: Config, v0: AgentView, r0: nat,
                       done: seq<seq<Transition>>): seq<Transition>
  {
    var episode := r0 + |done| + 1;
    EpisodeSteps(w, episode, [], Absorb(v0, Flatten(done), cfg.train), w.initial(episode),
                 Rate(cfg, |done|), cfg.maxT, cfg.train)
  }

  /** The episodes of a run, continuing after the finished episodes `done`. */
  function RunFrom(w: World, cfg: Config, v0: AgentView, r0: nat,
                   done: seq<seq<Transition>>): seq<seq<Transition>>
    decreases cfg.nEpisodes - |done|
  {
    if |done| >= cfg.nEpisodes then done
    else
      var next := done + [NextEpisode(w, cfg, v0, r0, done)];
      if StopsAfter(cfg, next) then next else RunFrom(w, cfg, v0, r0, next)
  }

  /** The episodes of a whole run, for an agent that starts as `v0` and an
      environment that has been reset `r0` times. */
  function Run(w: World, cfg: Config, v0: AgentView, r0: nat): seq<seq<Transition>>
  {
    RunFrom(w, cfg, v0, r0, [])
  }

  /** One episode: reset the environment, then play its steps. The ghost
      parameters name the collaborators' answers, the agent as it is now and
      the number the environment gives the episode. */
  method PlayEpisode(agent: Agent, env: Environment, eps: real, maxT: int, train: bool,
                     ghost w: World, ghost view: AgentView, ghost episode: nat)
    returns (score: real, ghost steps: seq<Transition>)
    requires w == World(agent.policy, env.initial, env.respond)
    requires view == AgentView(agent.memory, agent.acted) && episode == env.resets + 1
    modifies agent, env
    ensures env.resets == episode && env.taken == Actions(steps)
    ensures steps == EpisodeSteps(w, episode, [], view, w.initial(episode), eps, maxT, train)
    ensures AgentView(agent.memory, agent.acted) == Absorb(view, steps, train)
    ensures score == RewardSum(steps)
  {
    var state := env.Reset();
    score, steps := PlaySteps(agent, env, state, eps, maxT, train);
  }

  /** The step loop of an episode: act, step the environment, hand the
      transition to the agent in train mode only and accumulate the reward,
      for at most `maxT` steps or until the environment reports `done`. */
  method PlaySteps(agent: Agent, env: Environment, state0: State, eps: real, maxT: int, train: bool)
    returns (score: real, ghost steps: seq<Transition>)
    modifies agent, env
    ensures env.resets == old(env.resets) && env.taken == old(env.taken) + Actions(steps)
    ensures steps == EpisodeSteps(World(agent.policy, env.initial, env.respond), env.resets,
                                  old(env.taken), AgentView(old(agent.memory), old(agent.acted)),
                                  state0, eps, maxT, train)
    ensures AgentView(agent.memory, agent.acted)
         == Absorb(AgentView(old(agent.memory), old(agent.acted)), steps, train)
    ensures score == RewardSum(steps)
  {
    ghost var w, episode := World(agent.policy, env.initial, env.respond), env.resets;
    ghost var v0 := AgentView(agent.memory, agent.acted);
    ghost var taken0 := env.taken;
    ghost var taken, view := taken0, v0;
    ghost var full := EpisodeSteps(w, episode, taken, v0, state0, eps, maxT, train);
    var state := state0;
    score := 0.0;
    steps := [];
    var t := 0;
    while t < maxT
      invariant env.resets == episode && env.taken == taken
      invariant view == AgentView(agent.memory, agent.acted)
      invariant StepsSoFar(w, episode, taken0, v0, eps, train, full, steps, taken, view, state,
                           maxT - t, score)
      decreases maxT - t
    {
      var info;
      ghost var step;
      info, step := TakeStep(agent, env, state, eps, train);
      StepsSoFarNext(w, episode, taken0, v0, eps, train, full, steps, taken, view, state,
                     maxT - t, score, step);
      steps := steps + [step];
      score := score + info.reward;
      state := info.nextState;
      if info.done {
        break;
      }
      taken, view := taken + [step.action], Absorb(view, [step], train);
      t := t + 1;
    }
    if t >= maxT {
      assert steps == full;
    }
  }

  /** The body of the step loop: choose an action, send it to the environment
      and, in train mode only, hand the resulting transition to the agent. */
  method TakeStep(agent: Agent, env: Environment, state: State, eps: real, train: bool)
    returns (info: StepInfo, ghost step: Transition)
    modifies agent, env
    ensures step == FirstStep(World(agent.policy, env.initial, env.respond), env.resets,
                              old(env.taken), AgentView(old(agent.memory), old(agent.acted)), state, eps)
    ensures env.taken == old(env.taken) + [step.action]
    ensures info == StepInfo(step.nextState, step.reward, step.done)
    ensures env.resets == old(env.resets)
    ensures AgentView(agent.memory, agent.acted)
         == Absorb(AgentView(old(agent.memory), old(agent.acted)), [step], train)
  {
    var action := agent.Act(state, eps);
    info := env.Step(action);
    if train {
      agent.Step(state, action, info.reward, info.nextState, info.done);
    }
    step := Transition(state, action, info.reward, info.nextState, info.done);
  }

  /** One step of an episode: if `full` is what remains after `before`, it is
      also what remains after `before` and the next step, and it ends there
      when that step is final. */
  lemma StepProgress(w: World, episode: nat, taken: seq<Action>, v: AgentView, s: State,
                     eps: real, budget: int, train: bool, before: seq<Transition>,
                     full: seq<Transition>)
    requires budget > 0
    requires full == before + EpisodeSteps(w, episode, taken, v, s, eps, budget, train)
    ensures var t := FirstStep(w, episode, taken, v, s, eps);
            full == if t.done then before + [t]
                    else (before + [t]) + EpisodeSteps(w, episode, taken + [t.action],
                                                       Absorb(v, [t], train), t.nextState,
                                                       eps, budget - 1, train)
  {
    var t := FirstStep(w, episode, taken, v, s, eps);
    if !t.done {
      var rest := EpisodeSteps(w, episode, taken + [t.action], Absorb(v, [t], train), t.nextState,
                               eps, budget - 1, train);
      assert before + ([t] + rest) == (before + [t]) + rest;
    }
  }

  /** The state of the step loop of `PlaySteps` after `steps`: the actions
      taken, the agent, the score, and `full` being `steps` followed by what
      the remaining budget of steps plays from `state`. */
  ghost predicate StepsSoFar(w: World, episode: nat, taken0: seq<Action>, v0: AgentView, eps: real,
                             train: bool, full: seq<Transition>, steps: seq<Transition>,
                             taken: seq<Action>, view: AgentView, state: State, budget: int,
                             score: real)
  {
    && taken == taken0 + Actions(steps)
    && view == Absorb(v0, steps, train)
    && score == RewardSum(steps)
    && full == steps + EpisodeSteps(w, episode, taken, view, state, eps, budget, train)
  }

  /** One iteration of the step loop: taking the next step either ends the
      episode at `full` or keeps `StepsSoFar` with one step less of budget. */
  lemma StepsSoFarNext(w: World, episode: nat, taken0: seq<Action>, v0: AgentView, eps: real,
                       train: bool, full: seq<Transition>, steps: seq<Transition>,
                       taken: seq<Action>, view: AgentView, state: State, budget: int,
                       score: real, t: Transition)
    requires budget > 0
    requires StepsSoFar(w, episode, taken0, v0, eps, train, full, steps, taken, view, state,
                        budget, score)
    requires t == FirstStep(w, episode, taken, view, state, eps)
    ensures taken + [t.action] == taken0 + Actions(steps + [t])
    ensures Absorb(view, [t], train) == Absorb(v0, steps + [t], train)
    ensures score + t.reward == RewardSum(steps + [t])
    ensures t.done ==> full == steps + [t]
    ensures !t.done ==> StepsSoFar(w, episode, taken0, v0, eps, train, full, steps + [t],
                                   taken + [t.action], Absorb(view, [t], train), t.nextState,
                                   budget - 1, score + t.reward)
  {
    StepProgress(w, episode, taken, view, state, eps, budget, train, steps, full);
    assert (steps + [t])[..|steps|] == steps;
  }

  /** The training/evaluation driver, with the source's default arguments.
      Returns the score of every episode run. */
  method Dqn(agent: Agent, env: Environment, nEpisodes: int := 2500, maxT: int := 1000,
             epsStart: real := 1.0, epsEnd: real := 0.01, epsDecay: real := 0.999,
             train: bool := true)
    returns (scores: seq<real>)
    modifies agent, env
    ensures var runs := Run(World(agent.policy, env.initial, env.respond),
                            Config(nEpisodes, maxT, epsStart, epsEnd, epsDecay, train),
                            AgentView(old(agent.memory), old(agent.acted)), old(env.resets));
            && scores == Scores(runs)
            && AgentView(agent.memory, agent.acted)
               == Absorb(AgentView(old(agent.memory), old(agent.acted)), Flatten(runs), train)
            && env.resets == old(env.resets) + |runs|
            && env.taken == if runs == [] then old(env.taken) else Actions(runs[|runs| - 1])
  {
    var cfg := Config(nEpisodes, maxT, epsStart, epsEnd, epsDecay, train);
    ghost var w := World(agent.policy, env.initial, env.respond);
    ghost var v0 := AgentView(agent.memory, agent.acted);
    ghost var r0 := env.resets;
    ghost var full := Run(w, cfg, v0, r0);
    ghost var runs: seq<seq<Transition>> := [];
    ghost var taken0 := env.taken;
    scores := [];
    var window: Window := [];
    var eps := if train then epsStart else 0.0;
    var i := 0;
    while i < nEpisodes
      invariant i == |runs|
      invariant Tracks(w, cfg, v0, r0, taken0, runs, scores, window, eps,
                       AgentView(agent.memory, agent.acted), env.resets, env.taken)
      invariant RunFrom(w, cfg, v0, r0, runs) == full
      decreases nEpisodes - i
    {
      var score;
      ghost var steps;
      ghost var prevTaken := env.taken;
      score, steps := PlayNextEpisode(agent, env, eps, cfg, w, v0, r0, runs);
      TracksNext(w, cfg, v0, r0, taken0, runs, scores, window, eps, prevTaken, steps, score,
                 AgentView(agent.memory, agent.acted), env.resets, env.taken, full);
      window := Append(window, score);
      scores := scores + [score];
      eps := Decay(eps, epsEnd, epsDecay);
      runs := runs + [steps];
      i := i + 1;
      if train && Solved(window) {
        break;
      }
    }
  }

  /** What the episode loop keeps after the finished episodes `runs`: the
      score history and its window, the rate, the agent, the reset count and
      the environment's action log are those the episodes leave. */
  ghost predicate Tracks(w: World, cfg: Config, v0: AgentView, r0: nat, taken0: seq<Action>,
                         runs: seq<seq<Transition>>, scores: seq<real>, window: seq<real>,
                         eps: real, view: AgentView, resets: nat, taken: seq<Action>)
  {
    && scores == Scores(runs) && window == Last(scores)
    && eps == Rate(cfg, |runs|)
    && view == Absorb(v0, Flatten(runs), cfg.train)
    && resets == r0 + |runs|
    && taken == if runs == [] then taken0 else Actions(runs[|runs| - 1])
  }

  /** One pass of the episode loop keeps `Tracks`, and the run either stops
      after the new episode or goes on from there. */
  lemma TracksNext(w: World, cfg: Config, v0: AgentView, r0: nat, taken0: seq<Action>,
                   runs: seq<seq<Transition>>, scores: seq<real>, window: Window, eps: real,
                   prevTaken: seq<Action>, steps: seq<Transition>, score: real, view: AgentView,
                   resets: nat, taken: seq<Action>, full: seq<seq<Transition>>)
    requires |runs| < cfg.nEpisodes && full == RunFrom(w, cfg, v0, r0, runs)
    requires Tracks(w, cfg, v0, r0, taken0, runs, scores, window, eps,
                    Absorb(v0, Flatten(runs), cfg.train), r0 + |runs|, prevTaken)
    requires steps == NextEpisode(w, cfg, v0, r0, runs)
    requires view == Absorb(v0, Flatten(runs + [steps]), cfg.train)
    requires resets == r0 + |runs| + 1 && taken == Actions(steps)
    requires score == RewardSum(steps)
    ensures Tracks(w, cfg, v0, r0, taken0, runs + [steps], scores + [score], Append(window, score),
                   Decay(eps, cfg.epsEnd, cfg.epsDecay), view, resets, taken)
    ensures full == if StopsAfter(cfg, runs + [steps]) then runs + [steps]
                    else RunFrom(w, cfg, v0, r0, runs + [steps])
  {
    AppendEpisode(v0, runs, steps, cfg.train);
    AppendSlides(scores, score);
    var next := runs + [steps];
    assert next[|next| - 1] == steps;
  }

  /** The body of the episode loop: play the episode that follows the
      finished episodes `runs`, with the agent and the environment as those
      episodes left them. */
  method PlayNextEpisode(agent: Agent, env: Environment, eps: real, cfg: Config, ghost w: World,
                         ghost v0: AgentView, ghost r0: nat, ghost runs: seq<seq<Transition>>)
    returns (score: real, ghost steps: seq<Transition>)
    requires w == World(agent.policy, env.initial, env.respond)
    requires AgentView(agent.memory, agent.acted) == Absorb(v0, Flatten(runs), cfg.train)
    requires env.resets == r0 + |runs| && eps == Rate(cfg, |runs|)
    modifies agent, env
    ensures steps == NextEpisode(w, cfg, v0, r0, runs)
    ensures env.resets == r0 + |runs| + 1 && env.taken == Actions(steps)
    ensures AgentView(agent.memory, agent.acted) == Absorb(v0, Flatten(runs + [steps]), cfg.train)
    ensures score == RewardSum(steps)
  {
    ghost var view := Absorb(v0, Flatten(runs), cfg.train);
    ghost var episode := r0 + |runs| + 1;
    score, steps := PlayEpisode(agent, env, eps, cfg.maxT, cfg.train, w, view, episode);
    AppendEpisode(v0, runs, steps, cfg.train);
  }

  /** Finishing one more episode extends the score history and the agent's
      experience by that episode. */
  lemma AppendEpisode(v0: AgentView, done: seq<seq<Transition>>, steps: seq<Transition>, train: bool)
    ensures Scores(done + [steps]) == Scores(done) + [RewardSum(steps)]
    ensures Absorb(v0, Flatten(done + [steps]), train)
            == Absorb(Absorb(v0, Flatten(done), train), steps, train)
  {
    assert (done + [steps])[..|done|] == done;
    var f := Flatten(done);
    assert Flatten(done + [steps]) == f + steps;
    assert v0.memory + (f + steps) == (v0.memory + f) + steps;
  }
}
