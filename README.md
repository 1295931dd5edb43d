# Break-time optimizer: study-session environment and Q-learning agent

This project models the core of a study/break recommender in Dafny. The core has two parts.

- **The study environment** (`module Environment`, `environment.py`). It tracks the minutes studied and a fatigue level. It keeps two user preferences: fatigue sensitivity (low/medium/high) and break bias (study/short/long). Each preference is stored as a name plus an index. The environment turns this into a 4-component observation of buckets. Each of three actions gives a shaped reward: 0 continues studying, 1 is a short break, 2 is a long break. A session is done once 120 minutes have been studied.
- **The tabular Q-learning agent** (`module QLearning`, `q_learning_agent.py`). It keeps a zero-initialised value table of shape `state_size + (action_size,)`. It picks actions epsilon-greedily, with the first maximum on ties. It learns with the one-step Q-learning rule.

`module Wiring` states how the web application connects the two. It builds the table with shape (3, 3, 3, 3) and three actions.

## How the model is built

- The environment has a value type, `Session`, with the source's six fields. Pure functions over it specify the component: `StateOf`, `WithPreferences`, `Transition`, `Reward`, `Done` and `Restart`.
- The class `StudyEnvironment` holds the same six fields as mutable state. Its methods `SetPreferences`, `Step` and `Reset` assign them in place, as the source does. Each method is proved to agree with the pure functions.
- The agent's table is one flat `array<real>` laid out row-major. `Flatten` gives the position of an index tuple. `Cell(dims, n, s, a)` is the position of `Q[s][a]`.
- `Greedy` and `BestValue` are the loops hidden inside `np.argmax` and `np.max`. They are proved against the pure functions `ArgMax` (first maximum) and `Max`.
- `Update` is proved against the pure table function `Updated`.
- Rewards and values are Dafny `real`. So every decimal constant (0.6, 1.5, 0.4, …) is exact.
- The random numbers used by `choose_action` become parameters. `draw` is the result of `random.uniform(0, 1)`. `pick` is the result of `random.randint(0, action_size - 1)`, so it is required to lie in that range.

Actions outside {0, 1, 2}:

- The web layer rejects them before calling `step` (`app.py:169`).
- `step` in `environment.py` itself matches none of its branches for such an action. The fields stay unchanged and the reward is 0.
- `Transition` and `Reward` model this fall-through rather than forbidding the action (see `TransitionPreserves`).

## Model

| member | source | states |
|---|---|---|
| Environment.FatigueIndex | environment.py:30 | a sensitivity name is recognised iff it is low, medium or high, and its index is then in 0..2 |
| Environment.BiasIndex | environment.py:31 | a bias name is recognised iff it is study, short or long, and its index is then in 0..2 |
| Environment.PreferenceEncodingRoundTrip | environment.py:30-31 | the name-to-index maps are one-to-one: low/medium/high and study/short/long go to 0/1/2 and back |
| Environment.FatigueWeight | environment.py:47-51 | the penalty weight is 0.6 for low, 1.0 for medium, 1.5 for high, and 1.0 for any other name |
| Environment.Bucket | environment.py:13-25 | a bucket is the number of thresholds (30/60 minutes, 3/6 fatigue) the value has reached |
| Environment.BucketMonotone | environment.py:13-25 | buckets lie in 0..2 and never decrease as the value grows |
| Environment.Initial | environment.py:4-10 | a new environment has zero counters, medium sensitivity (index 1) and study bias (index 0), and is valid |
| Environment.StateOf | environment.py:12-27 | time bucket is 0 iff under 30 minutes and 2 iff at least 60; fatigue bucket is 0 iff under 3 and 2 iff at least 6; the last two components are the sensitivity and bias indices; every component is in 0..2 for a valid session |
| Environment.StateAfterPreferences | environment.py:27-39 | after recognised preferences are set, the observation carries their indices; the time and fatigue buckets are unchanged |
| Environment.WithPreferences | environment.py:29-39 | setting preferences never touches the counters and keeps a valid session valid |
| Environment.Transition | environment.py:57-78 | a step keeps a valid session valid, never lowers study time and never changes either preference |
| Environment.Reward | environment.py:44-88 | the reward of any action is at most 2.6, and that of any action other than continue lies in [-2.1, 1.8] |
| Environment.Done | environment.py:90 | a finished session always shows the top time bucket |
| Environment.Restart | environment.py:93-96 | a restarted session is not done, keeps validity and shows (0, 0, sensitivity index, bias index) |
| Environment.ContinueTimes | environment.py:57-62 | repeated continues never lower study time or fatigue and never change the preferences |
| Environment.WithPreferencesEffect | environment.py:29-39 | a recognised name replaces the stored name together with its index; an unrecognised one leaves both alone; counters are untouched; validity is kept |
| Environment.WithPreferencesIndependent | environment.py:33-39 | the stored sensitivity does not depend on the bias argument, and the stored bias does not depend on the sensitivity argument |
| Environment.TransitionPreserves | environment.py:41-91 | a step keeps counters non-negative and names consistent with indices; it never lowers study time and never changes the preferences; any other action changes nothing and is worth 0 |
| Environment.TransitionCounters | environment.py:57-78 | continue adds exactly 10 minutes and 1 fatigue; a short break subtracts 2 fatigue and a long break 4, never below 0; breaks keep the study time |
| Environment.ContinueReward | environment.py:51-62 | continue is worth 2.1 (2.6 with study bias) up to fatigue 3; above that it loses 0.5 times the weight per unit of fatigue over 3, measured before the step |
| Environment.ContinueRewardSlope | environment.py:47-62 | above fatigue 3, the reward for continuing is 2.1 minus 0.3, 0.5 or 0.75 per unit over 3 for low, medium or high sensitivity, plus 0.5 with study bias |
| Environment.ContinueRewardNonIncreasing | environment.py:54-60 | more fatigue before the step never raises the reward for continuing |
| Environment.ContinueRewardBySensitivity | environment.py:47-60 | a higher fatigue sensitivity never raises the reward for continuing |
| Environment.BreakRewards | environment.py:64-88 | apart from the bias adjustment, a short break is worth 1.5 iff fatigue was at least 6 (else 0.0); a long break is worth 1.0 iff fatigue was at least 10 (else -1.7); a long break below fatigue 10 is worth at most -1.4 |
| Environment.ShortBreakExample | environment.py:64-75 | a short break at fatigue 6 with short-break bias lowers fatigue to 4 and earns 1.8 |
| Environment.HighLongFirstStep | environment.py:57-62 | after choosing high/long and resetting, one continue gives fatigue 1, 10 minutes, reward 2.1 and not done |
| Environment.ResetEffect | environment.py:93-96 | reset zeroes both counters, keeps both preferences and yields the state (0, 0, sensitivity index, bias index) |
| Environment.ContinueTimesCounters | environment.py:57-59 | n consecutive continues add exactly 10n minutes and n fatigue |
| Environment.TwelveContinuesEndSession | environment.py:90 | from a reset, the 12th continue reaches exactly 120 minutes and is done; the 1st to 11th are not |
| Environment.StudyEnvironment.constructor | environment.py:4-10 | the fields start as the initial session |
| Environment.StudyEnvironment.GetState | environment.py:12-27 | the observation of the current fields; in range when the fields are valid |
| Environment.StudyEnvironment.SetPreferences | environment.py:29-39 | the new fields are the preference update of the old ones; validity is kept |
| Environment.StudyEnvironment.Step | environment.py:41-91 | the new fields are the transition of the old ones; the reward is that of the old fields; done iff at least 120 minutes; study time never decreases; validity is kept |
| Environment.StudyEnvironment.Reset | environment.py:93-96 | counters become 0, preferences stay, and the returned state is (0, 0, sensitivity index, bias index) |
| QLearning.Flatten | q_learning_agent.py:6 | the row-major position of an in-bounds index tuple lies inside the table |
| QLearning.FlattenInjective | q_learning_agent.py:6 | distinct index tuples occupy distinct positions |
| QLearning.Cell | q_learning_agent.py:19 | the position of `Q[state][action]` lies inside the table of shape `state_size + (action_size,)` |
| QLearning.CellInjective | q_learning_agent.py:19 | different (state, action) pairs never share a table entry |
| QLearning.Row | q_learning_agent.py:15-18 | the row `Q[state]` has one entry per action |
| QLearning.Updated | q_learning_agent.py:17-21 | the updated table keeps the shape `state_size + (action_size,)`; its entries are given by UpdateFrame and UpdateTarget |
| QLearning.FirstMaxUnique | q_learning_agent.py:15 | at most one index is the first maximum of a row |
| QLearning.Max | q_learning_agent.py:18 | the maximum of a row is at least every entry and equals one of them |
| QLearning.ArgMax | q_learning_agent.py:15 | the argmax is a valid index holding the maximum, and every earlier index holds a strictly smaller value |
| QLearning.ArgMaxHoldsMax | q_learning_agent.py:15-18 | the first maximum holds the row maximum |
| QLearning.UpdateFrame | q_learning_agent.py:17-21 | an update leaves every entry other than `Q[state][action]` unchanged |
| QLearning.UpdateTarget | q_learning_agent.py:18-21 | the updated entry is old + alpha * (reward + gamma * max of next row - old), with the max read from the table before the write, also when next state equals state, and with no special case for terminal states |
| QLearning.UpdateBetweenOldAndTarget | q_learning_agent.py:19-21 | the rule old + alpha * (target - old) with alpha in [0, 1] (0.1 here) gives a value between the old estimate and the target; this is the scalar form of the entry that UpdateTarget computes |
| QLearning.UpdateFixedPoint | q_learning_agent.py:19-21 | an entry that already equals its one-step target is left as it is |
| QLearning.Agent.constructor | q_learning_agent.py:5-10 | the table has `state_size + (action_size,)` cells, all zero; alpha 0.1, gamma 0.9, epsilon 0.2 |
| QLearning.Agent.Greedy | q_learning_agent.py:15 | returns the first action of highest value in the state's row |
| QLearning.Agent.BestValue | q_learning_agent.py:18 | returns the maximum of the state's row |
| QLearning.Agent.ChooseAction | q_learning_agent.py:12-15 | the result is always a valid action; it is the random pick when the draw is below epsilon and the first maximum otherwise; the table is not modified |
| QLearning.Agent.Update | q_learning_agent.py:17-21 | the new table is the one-step update of the old table; every other (state, action) entry is unchanged |
| Wiring.ObservationsAddressTable | app.py:34 | every observation of a valid session, with any action 0..2, addresses an entry of the (3, 3, 3, 3) x 3 table |

## Left out

- Floating point: rewards and values are exact reals. IEEE-754 rounding of the reward sums and Q-updates is not modelled, so the exact values (2.1, 2.6, 1.8) hold over reals, not necessarily bit for bit.
- Randomness: `random.uniform` and `random.randint` are parameters of `ChooseAction`. Their distributions, and so the probability epsilon of exploring, are not modelled.
- Negative table indices: numpy would wrap them. `ChooseAction` and `Update` require in-bounds indices instead, because callers only pass observations produced by `get_state`.
- An empty action set: `np.argmax`/`np.max` fail on an empty row. `ChooseAction` requires at least one action; `Update` gets this from its in-range action.
- `break_bias_penalty` has entries for short and long (environment.py:49), but `step` never reads them, so they do not appear in the model.
- The unused `import random` in environment.py has no counterpart.
- The web application (routes, JSON encoding, session-history persistence, statistics) and the browser script are I/O glue and are not part of this model. Only the table shape of app.py:34 is used, in `Wiring`.
- Training loops (app.py:224-238, train.py) are not modelled. Their termination depends on random choices, and an episode of breaks only never ends.
- The (3, 3) table shape in train.py is not modelled. A 4-component observation does not address such a table.
