/** The two collaborators the training driver talks to, reduced to what the
    driver can observe of them: the learning agent (`act`, `step`) and the
    simulated environment (`reset`, `step`). Their internals are outside this
    model; what they answer is fixed by opaque functions. */
module Collaborators {

  /** An observation vector. */
  type State = seq<real>

  /** An index into the discrete action set. */
  type Action = int

  /** One step as the agent's `step` receives it. */
  datatype Transition = Transition(state: State, action: Action, reward: real, nextState: State, done: bool)

  /** What the environment answers to one action. */
  datatype StepInfo = StepInfo(nextState: State, reward: real, done: bool)

  /** The agent's action choice. It may depend on everything the agent has been
      told: how many actions it has chosen before (its random stream), every
      transition handed to `step`, the current state and the exploration rate. */
  type Policy = (nat, seq<Transition>, State, real) -> Action

  /** The environment's reply to the actions taken so far in an episode; the
      episode is identified by how many resets have happened. */
  type Response = (nat, seq<Action>) -> StepInfo

  class Agent {
    /** Every transition handed to `Step`, in call order. */
    var memory: seq<Transition>
    /** How many times `Act` has been called. */
    var acted: nat
    const policy: Policy

    constructor (policy: Policy)
      ensures this.policy == policy && memory == [] && acted == 0
    {
      this.policy := policy;
      memory := [];
      acted := 0;
    }

    /** Chooses an action; changes nothing the training driver depends on
        besides the count of choices. */
    method Act(state: State, eps: real) returns (a: Action)
      modifies this`acted
      ensures a == policy(old(acted), memory, state, eps)
      ensures acted == old(acted) + 1
    {
      a := policy(acted, memory, state, eps);
      acted := acted + 1;
    }

    /** Hands one transition to the agent's learning machinery. */
    method Step(state: State, action: Action, reward: real, nextState: State, done: bool)
      modifies this`memory
      ensures memory == old(memory) + [Transition(state, action, reward, nextState, done)]
    {
      memory := memory + [Transition(state, action, reward, nextState, done)];
    }
  }

  class Environment {
    /** How many episodes have been started. */
    var resets: nat
    /** The actions sent since the last reset. */
    var taken: seq<Action>
    const initial: nat -> State
    const respond: Response

    constructor (initial: nat -> State, respond: Response)
      ensures this.initial == initial && this.respond == respond
      ensures resets == 0 && taken == []
    {
      this.initial := initial;
      this.respond := respond;
      resets := 0;
      taken := [];
    }

    /** Starts a new episode and returns its first observation. */
    method Reset() returns (s: State)
      modifies this
      ensures resets == old(resets) + 1 && taken == []
      ensures s == initial(resets)
    {
      resets := resets + 1;
      taken := [];
      s := initial(resets);
    }

    /** Performs one action in the current episode. */
    method Step(a: Action) returns (info: StepInfo)
      modifies this`taken
      ensures taken == old(taken) + [a]
      ensures info == respond(resets, taken)
    {
      taken := taken + [a];
      info := respond(resets, taken);
    }
  }
}
