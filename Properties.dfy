/** What the training driver guarantees, stated about the reference
    definition `Training.Run` (which `Training.Dqn` is proved to follow). */
module Properties {
  import opened Collaborators
  import opened ScoreWindow
  import opened Exploration
  import opened Training

  /** None of the runs `done[..1]`, ..., `done[..m-1]` met the stop rule. */
  ghost predicate NoStopBefore(cfg: Config, done: seq<seq<Transition>>, m: int)
    requires m <= |done| + 1
  {
    forall k :: 1 <= k < m ==> !StopsAfter(cfg, done[..k])
  }

  /** The run continued from `done` keeps `done` and ends at the episode
      budget or right after an episode that meets the stop rule. */
  lemma {:induction false} RunFromEnds(w: World, cfg: Config, v0: AgentView, r0: nat,
                                       done: seq<seq<Transition>>)
    ensures var r := RunFrom(w, cfg, v0, r0, done);
            && done <= r
            && (|r| == |done| || |r| <= cfg.nEpisodes)
            && (|done| < cfg.nEpisodes ==> |r| > |done|)
            && (|r| < cfg.nEpisodes ==> StopsAfter(cfg, r))
    decreases cfg.nEpisodes - |done|
  {
    if |done| < cfg.nEpisodes {
      var next := done + [NextEpisode(w, cfg, v0, r0, done)];
      if !StopsAfter(cfg, next) {
        RunFromEnds(w, cfg, v0, r0, next);
      }
    }
  }

  /** The run continued from `done`, when no prefix of `done` met the stop
      rule, ends at the first episode after which the rule holds. */
  lemma {:induction false} RunFromFirstStop(w: World, cfg: Config, v0: AgentView, r0: nat,
                                            done: seq<seq<Transition>>)
    requires NoStopBefore(cfg, done, |done| + 1)
    ensures var r := RunFrom(w, cfg, v0, r0, done);
            NoStopBefore(cfg, r, |r|)
    decreases cfg.nEpisodes - |done|
  {
    var r := RunFrom(w, cfg, v0, r0, done);
    if |done| < cfg.nEpisodes {
      var next := done + [NextEpisode(w, cfg, v0, r0, done)];
      if StopsAfter(cfg, next) {
        assert r == next;
        forall k | 1 <= k < |r|
          ensures !StopsAfter(cfg, r[..k])
        {
          assert r[..k] == done[..k];
        }
      } else {
        var rest := RunFrom(w, cfg, v0, r0, next);
        assert r == rest;
        assert NoStopBefore(cfg, next, |next| + 1) by {
          forall k | 1 <= k <= |next|
            ensures !StopsAfter(cfg, next[..k])
          {
            if k <= |done| {
              assert next[..k] == done[..k];
            } else {
              assert next[..k] == next;
            }
          }
        }
        RunFromFirstStop(w, cfg, v0, r0, next);
      }
    } else {
      assert r == done;
      forall k | 1 <= k < |r|
        ensures !StopsAfter(cfg, r[..k])
      {
      }
    }
  }

  /** Every episode of `r` from index `m` on is the one that follows the
      episodes before it. */
  ghost predicate FollowsFrom(w: World, cfg: Config, v0: AgentView, r0: nat,
                              r: seq<seq<Transition>>, m: nat)
  {
    forall k {:trigger NextEpisode(w, cfg, v0, r0, r[..k])} ::
      m <= k < |r| ==> r[k] == NextEpisode(w, cfg, v0, r0, r[..k])
  }

  /** Every episode the run adds after `done` is the one that follows the
      episodes before it. */
  lemma {:induction false} RunFromEpisodes(w: World, cfg: Config, v0: AgentView, r0: nat,
                                           done: seq<seq<Transition>>)
    ensures FollowsFrom(w, cfg, v0, r0, RunFrom(w, cfg, v0, r0, done), |done|)
    decreases cfg.nEpisodes - |done|
  {
    if |done| < cfg.nEpisodes {
      var next := done + [NextEpisode(w, cfg, v0, r0, done)];
      assert next[..|done|] == done;
      if !StopsAfter(cfg, next) {
        var r := RunFrom(w, cfg, v0, r0, done);
        RunFromEnds(w, cfg, v0, r0, next);
        RunFromEpisodes(w, cfg, v0, r0, next);
        assert r[..|done|] == done by {
          assert r[..|next|] == next;
        }
      }
    }
  }

  /** The run has one entry per episode started: none when the budget is not
      positive, otherwise between one and `n_episodes`. It ends before the
      budget only in train mode and only because the mean of the trailing
      window reached the threshold after the last episode; it never ends
      later than the first episode after which that happens, and there is no
      minimum number of episodes before it can. */
  lemma RunStops(w: World, cfg: Config, v0: AgentView, r0: nat)
    ensures var r := Run(w, cfg, v0, r0);
            && (cfg.nEpisodes <= 0 ==> r == [])
            && (cfg.nEpisodes > 0 ==> 1 <= |r| <= cfg.nEpisodes)
            && (|r| < cfg.nEpisodes ==> cfg.train && Solved(Last(Scores(r))))
            && (forall k :: 1 <= k < |r| ==> !StopsAfter(cfg, r[..k]))
  {
    RunFromEnds(w, cfg, v0, r0, []);
    RunFromFirstStop(w, cfg, v0, r0, []);
  }

  /** In eval mode every one of the `n_episodes` episodes is run. */
  lemma EvalRunsAll(w: World, cfg: Config, v0: AgentView, r0: nat)
    requires !cfg.train
    ensures |Run(w, cfg, v0, r0)| == if cfg.nEpisodes < 0 then 0 else cfg.nEpisodes
  {
    RunStops(w, cfg, v0, r0);
  }

  /** Every episode of a run is the one that follows the episodes before it. */
  lemma RunEpisodes(w: World, cfg: Config, v0: AgentView, r0: nat)
    ensures FollowsFrom(w, cfg, v0, r0, Run(w, cfg, v0, r0), 0)
  {
    RunFromEpisodes(w, cfg, v0, r0, []);
    assert Run(w, cfg, v0, r0) == RunFrom(w, cfg, v0, r0, []);
  }

  /** An episode performs at most `budget` steps; no step follows a step whose
      `done` is set; it stops short of the budget only on such a step; and
      each step starts in the state the previous one reached. */
  lemma {:induction false} EpisodeShape(w: World, episode: nat, taken: seq<Action>, v: AgentView,
                                        s: State, eps: real, budget: int, train: bool)
    ensures var steps := EpisodeSteps(w, episode, taken, v, s, eps, budget, train);
            && |steps| <= (if budget < 0 then 0 else budget)
            && (forall j :: 0 <= j < |steps| - 1 ==> !steps[j].done)
            && (|steps| < budget ==> steps != [] && steps[|steps| - 1].done)
            && (steps != [] ==> steps[0].state == s)
            && (forall j :: 1 <= j < |steps| ==> steps[j].state == steps[j - 1].nextState)
    decreases budget
  {
    if budget > 0 {
      var t := FirstStep(w, episode, taken, v, s, eps);
      if !t.done {
        var rest := EpisodeSteps(w, episode, taken + [t.action], Absorb(v, [t], train), t.nextState,
                                 eps, budget - 1, train);
        EpisodeShape(w, episode, taken + [t.action], Absorb(v, [t], train), t.nextState,
                     eps, budget - 1, train);
        var steps := [t] + rest;
        assert forall j :: 1 <= j < |steps| ==> steps[j] == rest[j - 1];
      }
    }
  }

  /** Step j of `steps` was chosen by the agent as `before` it, that is after
      it chose the j earlier actions of the episode and, in train mode only,
      was handed each of those j steps through `step`; and it is the
      environment's answer to the episode's actions up to and including it. */
  ghost predicate ActedInOrder(w: World, episode: nat, taken: seq<Action>, v: AgentView,
                               eps: real, train: bool, steps: seq<Transition>)
  {
    forall j :: 0 <= j < |steps| ==> ActedAt(w, episode, taken, v, eps, train, steps, j)
  }

  ghost predicate ActedAt(w: World, episode: nat, taken: seq<Action>, v: AgentView,
                          eps: real, train: bool, steps: seq<Transition>, j: nat)
    requires j < |steps|
  {
    var before := Absorb(v, steps[..j], train);
    && steps[j].action == w.policy(before.acted, before.memory, steps[j].state, eps)
    && w.respond(episode, taken + Actions(steps[..j + 1]))
       == StepInfo(steps[j].nextState, steps[j].reward, steps[j].done)
  }

  /** Within an episode the agent acts once per step with the episode's rate,
      learns from every step in train mode (and from none in eval mode) before
      it chooses the next action, and every step is the environment's answer
      to all actions of the episode so far. */
  lemma {:induction false} EpisodeActs(w: World, episode: nat, taken: seq<Action>, v: AgentView,
                                       s: State, eps: real, budget: int, train: bool)
    ensures ActedInOrder(w, episode, taken, v, eps, train,
                         EpisodeSteps(w, episode, taken, v, s, eps, budget, train))
    decreases budget
  {
    if budget > 0 {
      var t := FirstStep(w, episode, taken, v, s, eps);
      var v1 := Absorb(v, [t], train);
      var rest := if t.done then []
                  else EpisodeSteps(w, episode, taken + [t.action], v1, t.nextState, eps, budget - 1, train);
      if !t.done {
        EpisodeActs(w, episode, taken + [t.action], v1, t.nextState, eps, budget - 1, train);
      }
      ActsThenRest(w, episode, taken, v, eps, train, t, rest);
      assert EpisodeSteps(w, episode, taken, v, s, eps, budget, train) == [t] + rest;
    }
  }

  /** Acting once and then acting in order from the agent and actions that
      step left behind is acting in order. */
  lemma ActsThenRest(w: World, episode: nat, taken: seq<Action>, v: AgentView, eps: real,
                     train: bool, t: Transition, rest: seq<Transition>)
    requires t == FirstStep(w, episode, taken, v, t.state, eps)
    requires ActedInOrder(w, episode, taken + [t.action], Absorb(v, [t], train), eps, train, rest)
    ensures ActedInOrder(w, episode, taken, v, eps, train, [t] + rest)
  {
    var steps := [t] + rest;
    assert ActedAt(w, episode, taken, v, eps, train, steps, 0) by {
      assert steps[..1] == [t] && Actions([t]) == [t.action];
      assert Absorb(v, [], train) == v by {
        assert v.memory + [] == v.memory;
      }
    }
    forall j | 1 <= j < |steps|
      ensures ActedAt(w, episode, taken, v, eps, train, steps, j)
    {
      ActedAtShift(w, episode, taken, v, eps, train, t, rest, j - 1);
    }
  }

  /** Step k of `rest` acted in order after `t` is step k + 1 of `[t] + rest`
      acted in order. */
  lemma ActedAtShift(w: World, episode: nat, taken: seq<Action>, v: AgentView, eps: real,
                     train: bool, t: Transition, rest: seq<Transition>, k: nat)
    requires k < |rest|
    requires ActedAt(w, episode, taken + [t.action], Absorb(v, [t], train), eps, train, rest, k)
    ensures ActedAt(w, episode, taken, v, eps, train, [t] + rest, k + 1)
  {
    var steps := [t] + rest;
    var j := k + 1;
    assert steps[j] == rest[k];
    StepOfRest(v, t, rest, j, train);
    assert taken + Actions(steps[..j + 1]) == (taken + [t.action]) + Actions(rest[..k + 1]);
  }

  /** Step j of `[t] + rest` is step j - 1 of `rest`, seen after `t`. */
  lemma StepOfRest(v: AgentView, t: Transition, rest: seq<Transition>, j: nat, train: bool)
    requires 1 <= j <= |rest|
    ensures ([t] + rest)[..j] == [t] + rest[..j - 1]
    ensures Absorb(v, ([t] + rest)[..j], train) == Absorb(Absorb(v, [t], train), rest[..j - 1], train)
    ensures Actions(([t] + rest)[..j + 1]) == [t.action] + Actions(rest[..j])
  {
    assert ([t] + rest)[..j] == [t] + rest[..j - 1];
    assert ([t] + rest)[..j + 1] == [t] + rest[..j];
    assert v.memory + ([t] + rest[..j - 1]) == (v.memory + [t]) + rest[..j - 1];
  }

  /** In a sequence of episodes that follow each other (as RunEpisodes shows
      a run's do), episode k + 1 is played from the environment's reset for
      that episode with the rate Rate(cfg, k), by the agent as all earlier
      episodes left it. */
  lemma EpisodeOfRun(w: World, cfg: Config, v0: AgentView, r0: nat, r: seq<seq<Transition>>, k: nat)
    requires FollowsFrom(w, cfg, v0, r0, r, 0) && k < |r|
    ensures r[k] == EpisodeSteps(w, r0 + k + 1, [], Absorb(v0, Flatten(r[..k]), cfg.train),
                                 w.initial(r0 + k + 1), Rate(cfg, k), cfg.maxT, cfg.train)
  {
    var d := r[..k];
    assert |d| == k;
    assert r[k] == NextEpisode(w, cfg, v0, r0, d);
  }

  /** Episode k + 1 of such a sequence starts in the environment's reset
      state for that episode, takes at most `max_t` steps, and stops short of
      `max_t` only on a step whose `done` is set. */
  lemma RunEpisodeShape(w: World, cfg: Config, v0: AgentView, r0: nat, r: seq<seq<Transition>>, k: nat)
    requires FollowsFrom(w, cfg, v0, r0, r, 0) && k < |r|
    ensures var e := r[k];
            && |e| <= (if cfg.maxT < 0 then 0 else cfg.maxT)
            && (|e| < cfg.maxT ==> e != [] && e[|e| - 1].done)
            && (e != [] ==> e[0].state == w.initial(r0 + k + 1))
  {
    EpisodeOfRun(w, cfg, v0, r0, r, k);
    EpisodeShape(w, r0 + k + 1, [], Absorb(v0, Flatten(r[..k]), cfg.train), w.initial(r0 + k + 1),
                 Rate(cfg, k), cfg.maxT, cfg.train);
  }

  /** In episode k + 1 of such a sequence the agent chooses one action per
      step with the rate Rate(cfg, k), and in train mode is handed every step
      of the run so far, in order, before it chooses the next action. */
  lemma RunEpisodeActs(w: World, cfg: Config, v0: AgentView, r0: nat, r: seq<seq<Transition>>, k: nat)
    requires FollowsFrom(w, cfg, v0, r0, r, 0) && k < |r|
    ensures ActedInOrder(w, r0 + k + 1, [], Absorb(v0, Flatten(r[..k]), cfg.train),
                         Rate(cfg, k), cfg.train, r[k])
  {
    var v := Absorb(v0, Flatten(r[..k]), cfg.train);
    var e := r[k];
    EpisodeOfRun(w, cfg, v0, r0, r, k);
    EpisodeActs(w, r0 + k + 1, [], v, w.initial(r0 + k + 1), Rate(cfg, k), cfg.maxT, cfg.train);
    assert ActedInOrder(w, r0 + k + 1, [], v, Rate(cfg, k), cfg.train, e);
  }

  /** In train mode the run ends after its first episode exactly when that is
      the only episode allowed or the first episode alone scores the
      threshold: there is no minimum number of episodes before the early
      stop. */
  lemma FirstEpisodeStops(w: World, cfg: Config, v0: AgentView, r0: nat)
    requires cfg.train && cfg.nEpisodes >= 1
    ensures |Run(w, cfg, v0, r0)| == 1
            <==> cfg.nEpisodes == 1 || RewardSum(NextEpisode(w, cfg, v0, r0, [])) >= SolvedScore
  {
    var r := Run(w, cfg, v0, r0);
    var score := RewardSum(NextEpisode(w, cfg, v0, r0, []));
    RunStops(w, cfg, v0, r0);
    RunEpisodes(w, cfg, v0, r0);
    assert r[..0] == [];
    assert r[0] == NextEpisode(w, cfg, v0, r0, r[..0]);
    var s := Scores(r[..1]);
    assert s == [score] && Last(s) == s && Sum(s) == score;
    assert StopsAfter(cfg, r[..1]) <==> score >= SolvedScore;
    if |r| == 1 {
      assert r[..1] == r;
    }
  }

  /** A world in which every action ends the episode at once with the given
      reward. */
  function OneShot(policy: Policy, initial: nat -> State, reward: real): World
  {
    World(policy, initial, (episode: nat, taken: seq<Action>) => StepInfo([], reward, true))
  }

  /** A concrete instance of `FirstEpisodeStops`: in train mode, in a world
      whose first step already scores the threshold and ends the episode, the
      run is that single episode, whatever `n_episodes` is. */
  lemma SolvedAfterFirstEpisode(policy: Policy, initial: nat -> State, cfg: Config,
                                v0: AgentView, r0: nat)
    requires cfg.train && cfg.nEpisodes >= 1 && cfg.maxT >= 1
    ensures var r := Run(OneShot(policy, initial, SolvedScore), cfg, v0, r0);
            |r| == 1 && Scores(r) == [SolvedScore]
  {
    var w := OneShot(policy, initial, SolvedScore);
    var none: seq<seq<Transition>> := [];
    var e := NextEpisode(w, cfg, v0, r0, none);
    var t := FirstStep(w, r0 + 1, [], Absorb(v0, Flatten(none), cfg.train), initial(r0 + 1), Rate(cfg, 0));
    assert e == [t];
    var scores := Scores(none + [e]);
    assert scores == [SolvedScore] by {
      assert RewardSum(e) == SolvedScore;
    }
    assert StopsAfter(cfg, none + [e]) by {
      assert Last(scores) == scores;
      assert Sum(scores) == SolvedScore;
    }
    assert Run(w, cfg, v0, r0) == none + [e];
  }
}
