# Banana finder: the deep Q-learning driver

This project models `dqn`, the training and evaluation driver of the banana
collector. It plays up to `n_episodes` episodes against an environment. Each
episode takes up to `max_t` steps and ends early when the environment reports
`done`. The agent chooses actions with an epsilon-greedy rate. In train mode
only, the agent also receives every transition through `step`.

After each episode the driver does three things:

- it appends the episode's score to the history and to a 100-entry trailing
  window;
- it decays the rate to `max(eps_end, eps_decay * eps)`;
- in train mode, it stops once the mean of the window reaches 13.0.

When the loop ends, it returns the score history.

The model has five modules:

- `Collaborators`: the agent and the environment, as classes. Each keeps only
  what the driver can observe.
  - The agent records how many actions it has chosen and every transition
    handed to `step`. Its choice is an opaque function of those, the state
    and the rate.
  - The environment counts its resets and the actions taken since the last
    one. Its first observation and its replies are opaque functions of those.
- `ScoreWindow`: the bounded deque, its mean and the solved test.
- `Exploration`: the rate schedule and what it guarantees.
- `Training`:
  - `Run` and `EpisodeSteps` are a reference definition of a whole run.
  - `Dqn`, `PlayNextEpisode`, `PlayEpisode`, `PlaySteps` and `TakeStep` are
    the imperative driver, with the source's loops and its two collaborator
    objects. Each is proved to produce exactly its part of the reference run,
    and to leave the agent and the environment as that part says:
    - `Dqn` the whole run, `Run`;
    - `PlayNextEpisode` the next episode, `NextEpisode`;
    - `PlayEpisode` and `PlaySteps` the steps of one episode, `EpisodeSteps`;
    - `TakeStep` a single step, `FirstStep`.
- `Properties`: lemmas about the reference run.

`Dqn` keeps the default arguments of `dqn` (banana_finder.py:11-12):
2500 episodes, 1000 steps, a rate from 1.0 down to 0.01 with factor 0.999,
and train mode. At those values, the ranges that the `Exploration` lemmas
assume hold.

Two behaviours of the code that one might not expect:

- **Stop rule.** The "solved in" message at banana_finder.py:64-65 reports
  `i_episode - 100`, as if at least 100 episodes had to pass first. The code
  has no such minimum: it tests the mean of whatever the window holds, so the
  message can report a negative number. `FirstEpisodeStops` shows that a
  first episode scoring 13.0 ends the run.
- **Eval-mode rate.** The rate is not held at 0 in eval mode. The code starts
  it at 0.0 and then decays it like any other rate, so from the second
  episode on it is `eps_end`.

## Model

| member | source | states |
|---|---|---|
| Training.Dqn | banana_finder.py:11-68 | The returned scores are the scores of the reference run `Run` for this configuration, agent and environment. The agent ends having chosen one action per step of the run and, in train mode only, having received every step in order. The environment ends reset once per episode run, holding the actions of the last episode (or untouched when no episode ran). The defaults are those of the source. |
| Training.PlayNextEpisode | banana_finder.py:31-54 | The body of the episode loop plays exactly the episode `NextEpisode` prescribes after the finished ones. The environment is reset once more and holds that episode's actions, the agent has taken in that episode, and the score appended to the history is its reward sum. |
| Training.PlayEpisode | banana_finder.py:31-50 | One episode resets the environment and plays from its first observation. It returns the sum of the rewards of exactly the steps `EpisodeSteps` prescribes. It leaves the agent as those steps do, and the environment stepped once per step, with those steps' actions. |
| Training.PlaySteps | banana_finder.py:36-50 | The step loop follows `EpisodeSteps`: at most `max_t` iterations, and a stop right after the first `done`. The returned score is the sum of the rewards of the steps taken. The environment is stepped once per step taken, with that step's action. |
| Training.TakeStep | banana_finder.py:38-48 | One step: the agent's action for the current state and rate, and the environment's reply to the episode's actions so far. In train mode, and only then, the transition goes to the agent's `step`. |
| Collaborators.Agent.Act | banana_finder.py:38 | The action is the policy's choice for the agent's history, state and rate; one more choice is counted. |
| Collaborators.Agent.Step | banana_finder.py:46 | The transition is appended to what the agent has been handed, and nothing else changes. |
| Collaborators.Environment.Reset | banana_finder.py:32-34 | A reset starts a new episode: the reset count goes up by one, and the first observation belongs to that episode. |
| Collaborators.Environment.Step | banana_finder.py:40-44 | The reply is the environment's answer to the episode's actions including this one. |
| Training.Run | banana_finder.py:30-67 | Defines the episodes of a whole run: the episodes of `RunFrom`, starting with none finished. |
| Training.RunFrom | banana_finder.py:30-67 | Defines the rest of a run after some finished episodes. It stops at n_episodes. Otherwise it plays the next episode and stops right after it when the stop rule holds, or goes on. |
| Training.NextEpisode | banana_finder.py:31-50 | Defines the episode after some finished ones. It starts from the next reset's observation, with the rate after that many decays, and the agent as the finished episodes left it. |
| Training.EpisodeSteps | banana_finder.py:36-50 | Defines the steps of an episode: at most the remaining budget of steps, each taken by `FirstStep`, and none after a step whose `done` is set. |
| Training.FirstStep | banana_finder.py:38-44 | Defines one step: the agent's choice for the state and rate, and the environment's reply to the episode's actions including it. |
| Training.Absorb | banana_finder.py:38-46 | Defines the agent after some steps: one more choice counted per step and, in train mode only, the steps appended to what it was handed. |
| Training.RewardSum | banana_finder.py:35-48 | Defines an episode's score: the sum of its rewards, starting from 0. |
| Training.StopsAfter | banana_finder.py:63 | Defines the stop test after some episodes: train mode and a solved window of their scores. |
| Training.Scores | banana_finder.py:52-54 | The score history has one entry per episode, and entry k is the sum of the rewards of episode k + 1. |
| ScoreWindow.Append | banana_finder.py:53 | Appending to the bounded deque grows it by one until it holds 100 entries, then keeps 100. The new score is last, and what precedes it is the old contents minus the oldest entry when the deque was full. |
| ScoreWindow.AppendSlides | banana_finder.py:52-54 | Appending a score to the window of a history gives the window of the extended history. |
| ScoreWindow.FillKeepsLast | banana_finder.py:28-54 | After i appends to an empty deque with maxlen 100, it holds exactly the last min(i, 100) scores, in order. |
| ScoreWindow.Fill | banana_finder.py:28-53 | Defines the deque built by appending every score of a history, in order, to an empty `deque(maxlen=100)`. |
| ScoreWindow.Last | banana_finder.py:28 | Defines, independently of the deque, the last min(\|scores\|, 100) scores of a history, in order. `FillKeepsLast` proves the deque equal to it. |
| ScoreWindow.Mean | banana_finder.py:63 | Defines the mean of a non-empty window: its sum divided by its length. |
| ScoreWindow.Solved | banana_finder.py:63 | Defines the solved test: the window is non-empty and its mean is at least 13.0. |
| ScoreWindow.LastIsSuffix | banana_finder.py:28 | The window has min(\|scores\|, 100) entries and is a suffix of the history. |
| Exploration.Max | banana_finder.py:56 | Defines Python's two-argument `max`. |
| Exploration.Decay | banana_finder.py:56 | Defines one decay step: max(eps_end, eps_decay * eps). |
| Exploration.EpsAt | banana_finder.py:29-56 | Defines the rate after k episodes: eps_start in train mode and 0.0 in eval mode at first, then one decay step per episode. |
| Exploration.DecayedStartInRange | banana_finder.py:56 | For a decay factor in [0, 1], the decayed start value eps_start * eps_decay^k stays between 0 and eps_start. |
| Exploration.TrainClosedForm | banana_finder.py:29-56 | In train mode the rate after k episodes is max(eps_end, eps_start * eps_decay^k). |
| Exploration.TrainInRange | banana_finder.py:56 | In train mode the rate stays between eps_end and eps_start. |
| Exploration.TrainNonIncreasing | banana_finder.py:56 | In train mode the rate never increases from one episode to the next. |
| Exploration.EvalRate | banana_finder.py:29-56 | In eval mode the rate is 0.0 in the first episode and eps_end in every later one. |
| Properties.RunStops | banana_finder.py:30-67 | A run has no episodes when n_episodes <= 0, and otherwise between 1 and n_episodes. A run ends before n_episodes only in train mode, and only when the window mean after the last episode (whose score is already appended) is at least 13.0. A run never goes past the first episode after which that holds. |
| Properties.EvalRunsAll | banana_finder.py:30-63 | In eval mode every one of the n_episodes episodes is run. |
| Properties.RunEpisodes | banana_finder.py:30-56 | Every episode of a run is the episode that follows the ones before it. |
| Properties.EpisodeOfRun | banana_finder.py:29-56 | Episode k + 1 is played from the observation of reset r0 + k + 1, with the rate after k decays, by the agent as the earlier episodes left it. |
| Properties.EpisodeShape | banana_finder.py:36-50 | An episode has at most max_t steps, and no step follows one whose `done` is set. It is shorter than max_t only when its last step is `done`. Each step starts in the state the previous one reached. |
| Properties.EpisodeActs | banana_finder.py:36-48 | Within an episode the agent is asked for exactly one action per step, with the episode's rate. In train mode it is handed each earlier step, in order, before choosing; in eval mode it is handed none. Each step is the environment's reply to all of the episode's actions so far. |
| Properties.RunEpisodeShape | banana_finder.py:31-50 | Each episode of a run starts from its reset observation, has at most max_t steps, and stops short of max_t only on a `done` step. |
| Properties.RunEpisodeActs | banana_finder.py:36-48 | In each episode of a run the agent acts once per step with the rate for that episode. In train mode it has by then been handed every earlier step of the run, in order. |
| Properties.FirstEpisodeStops | banana_finder.py:30-67 | There is no minimum episode count for the early stop. In train mode with n_episodes >= 1, the run has exactly one episode if and only if n_episodes is 1 or the first episode's reward sum is at least 13.0. This holds for any environment and agent. |
| Properties.SolvedAfterFirstEpisode | banana_finder.py:63-67 | A concrete witness of `FirstEpisodeStops`: in train mode, in a world where every action ends the episode with reward 13.0, the run is that one episode and its score history is [13.0], for any n_episodes >= 1, with max_t >= 1. |
| Training.Actions | banana_finder.py:38-40 | The actions sent to the environment in an episode, one per step, in order. |

## Left out

- `runner` and the `argh` command line are outside this model. They load the environment and the agent, choose train or eval mode, and run the driver.
- The Unity environment is not modelled. It becomes two opaque functions: the first observation of the n-th reset, and the reply to the actions taken since that reset. The `brain_name` lookup and the `[0]` indexing of observations, rewards and done flags are folded into those functions. The `train_mode` flag given to `reset` is not modelled on its own; whatever effect it has on the simulator is absorbed into those two opaque functions.
- Failures of the collaborators are not modelled. The model's agent and environment are total functions. In the source nothing around `env.reset`, `env.step`, `agent.act` or `agent.step` catches an exception, so a failure there aborts `dqn` with no scores returned. The model cannot express that outcome.
- The agent's internals are not modelled: its networks, replay buffer, learning step and random number generator. Its action is an opaque function of how many actions it has chosen (standing for its random stream), every transition it was handed, the state and the rate.
- The progress prints and the "solved" message (lines 58-65) are not modelled, because they are output only.
- Saving the checkpoint with `torch.save` (line 66) is not modelled, because it is file output.
- Floating point is modelled as exact reals. Rounding in the reward sum, the decay product and the window mean is not captured, and neither is NaN in `max`.
- Exploration.EvalRate: holds only when eps_end >= 0 and eps_decay <= 1. Otherwise the eval-mode rate after the first episode still follows `max(eps_end, eps_decay * eps)`, which `EpsAt` models, but the lemma does not characterise it.
- Exploration.TrainClosedForm: assumes 0 <= eps_decay <= 1 and 0 <= eps_end <= eps_start, as the defaults do. Outside that range the schedule is still modelled by `EpsAt`, but not characterised.
- Exploration.TrainInRange: assumes the same range as TrainClosedForm.
- Exploration.TrainNonIncreasing: assumes the same range as TrainClosedForm.
