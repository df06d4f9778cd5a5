# NNLander in Dafny

A Dafny model of the core of NNLander. NNLander trains small fully connected ReLU
networks to fly a 2D lunar lander. The model covers these parts:

- **The networks.** Four representations of the same network compute the same
  function:
  - the flat parameter buffer of Lander03;
  - the row-major `LayerParameters` vectors of the `dp2` test network;
  - the tuple of augmented Eigen matrices of the current `SimpleNeuralNet`;
  - the `tc1` template reference of the tests.

  All four are stated against one reference: a layer layout (`Offset`,
  `FlatIndex`, `Unflatten`/`Flatten`) and a forward pass (`Forward`, ReLU on
  every layer, the bias in the last column of each row).
- **The test fixtures.** They load one flat buffer into every representation and
  compare the outputs. The model proves that all representations return the
  reference output.
- **The trainers.**
  - random search (Lander03);
  - the genetic algorithm over flat vectors (Lander04) and over matrix packs
    (Lander05). Both use elitism, tournament selection, uniform crossover and
    clamped mutation;
  - the REINFORCE-ES trainer with antithetic pairs (Lander05).
- **The simulation.** The lander step, the pad and terrain verdicts, and the
  terrain layout.
- **The Lander02 rule-based brain.**
- **The `FastRandom` xorshift64\* generator.**
- **The `strip_whitespace.py` maintenance script.**

## How the model is organised

One module per source file, plus `NetModel` (the shared network reference) and
`Genetic` (what the two GA trainers share).

- **Classes.** Classes whose methods update fields in place stay classes with
  `modifies` frames: the networks, the trainers, `Lander`, `LandingPad`,
  `Terrain`, `Simulation`, the fixture and the `FastRandom` state word. Their
  methods are proved against specification functions: `AnimStep`, `SimStep`,
  `Forward`, `Unflatten`, `SortByFitness`, `Evaluated`, `NextGeneration`,
  `GradientEstimate`, `NextCentral`, `Selected` and `Next`.
- **Functions and lemmas.** Pure code becomes functions and lemmas. This covers
  the brain, the line transform of the script and the layout arithmetic.
- **Random draws.** Every random value is an explicit input of the operation
  that consumes it. This covers `std::mt19937` with its distributions,
  `std::shuffle`, and raylib's `GetRandomValue`. A draw from a uniform
  distribution is given as its canonical value in [0, 1]. A normal sample
  arrives already drawn.
- **The simulation score.** The score of a network on a simulation variant is
  the oracle parameter `score`/`simulate`. The C++ `TestNetworkOnSimulation`
  runs the whole episode loop and `CalculateScore`, and neither is part of this
  model.
- **Square root.** The C++ `std::sqrt` is the parameter `sqrt`.
- **Numbers.** Floating-point numbers are `real`.
- **Strings.** Strings are `seq<char>`.

Further points about the code that shape the model:

- The simulation takes no seed. The pad position and terrain offsets come from
  `GetRandomValue`, so they are inputs here.
- The GA trainers cap an episode at 30 simulated seconds, and the other
  trainers at `Simulation::MAX_TIME_S`. The model takes the episode score as an
  input either way.
- The GA trainers index `mPopulation[0]` without a check, so the model requires
  a non-empty population.
- Lander05's evaluation can run on threads. The model runs it inline, which is
  the `useThread == false` path.

## Model

| member | source | states |
|---|---|---|
| NetModel.Relu | Common/SimpleNeuralNet.h:241 | The activation is never negative and never below its input, and it is either the input or zero. |
| NetModel.Clamp | Lander04/TrainingTaskGA.h:252 | `std::clamp` lands in `[lo, hi]` and leaves a value already in range unchanged. |
| NetModel.MaxOf | Lander03/lander03.cpp:64 | `*max_element` of the architecture is one of its entries and at least every entry. |
| NetModel.LayerParamsIsProduct | Common/SimpleNeuralNet.h:117-123 | One layer transition holds `nIn*nOut` weights and `nOut` biases, the term the parameter count adds. |
| NetModel.CalcTotalParameters | Common/SimpleNeuralNet.h:117-123 | The accumulating loop returns the number of parameters of the architecture, `TotalParams`. |
| NetModel.TotalParamsExample | Common/SimpleNeuralNet.h:83-94 | The worked example `[3, 5, 5, 3]` has 55 connections and 68 parameters. |
| NetModel.FlatIndex | Lander03/lander03.cpp:88-97 | The buffer position `paramIdx` reaches for a cell lies inside that layer's block and below the total parameter count. |
| NetModel.FlatIndexInjective | Common/SimpleNeuralNet.h:165-179 | Distinct cells have distinct flat positions, so a visit in the flat order touches each cell once. |
| NetModel.WeightIndex | tests/dp2/SimpleNeuralNet.h:241-252 | Counting weights only (biases skipped), a weight's position lies inside its layer's weight block and below the total weight count. |
| NetModel.Unflatten | Lander03/lander03.cpp:82-105 | Reading a flat buffer layer by layer, a row of weights followed by the bias, gives matrices of the architecture's shapes. |
| NetModel.MatrixCellAt | Lander03/lander03.cpp:93-97 | A cell of a weight block read at an offset is the buffer value at the offset plus its row-major index. |
| NetModel.UnflattenAt | Lander03/lander03.cpp:93-97 | Cell `(l, r, c)` of the layers read from a buffer is the buffer value at its flat index. |
| NetModel.FlattenLength | tests/fixitures.h:36 | The flat form of a correctly shaped pack holds exactly `CalcTotalParameters(netArch)` values. |
| NetModel.FlattenAt | Common/SimpleNeuralNet.h:165-179 | Cell `(l, r, c)` of a pack sits at its flat index in the flat form. |
| NetModel.FlattenUnflatten | tests/fixitures.h:128-156 | Reading a buffer into layers and laying them out again gives back the buffer's first `TotalParams` values. |
| NetModel.UnflattenFlatten | tests/fixitures.h:128-156 | Laying a pack out flat and reading it back gives the same pack. |
| NetModel.LayerOut | Common/SimpleNeuralNet.h:244-248 | A layer transition produces one non-negative output per row. |
| NetModel.Forward | Common/SimpleNeuralNet.h:250-257 | The network output has the last layer's width and, with at least one transition, no negative entry. |
| NetModel.ForwardFront | Common/SimpleNeuralNet.h:250-257 | The pass is the first layer followed by the pass of the remaining layers, as the recursive overload computes it. |
| NetModel.DotCommute | tests/dp2/SimpleNeuralNet.h:162 | The weighted sum is the same whichever operand of each product comes first. |
| NetModel.CopyPrefix | Lander03/lander03.cpp:75-76 | The copy loop copies the first `n` values and leaves the rest of the destination unchanged. |
| NetModel.UniformSampleInRange | Common/SimpleNeuralNet.h:228 | `uniform_real_distribution(-limit, limit)` applied to a canonical draw lies in `[-limit, limit]`. |
| NetModel.MapCells | Common/SimpleNeuralNet.h:165-179 | Every cell is visited once, layers then rows then columns, and becomes the callback's value for its visit index. The count of visits is `TotalParams`. |
| CommonNet.SimpleNeuralNet.constructor | Common/SimpleNeuralNet.h:96-99 | A network of at least two layers whose parameter matrices have the architecture's shapes. |
| CommonNet.SimpleNeuralNet.Copy | Common/SimpleNeuralNet.h:102-104 | The copy constructor copies the architecture and every parameter. |
| CommonNet.SimpleNeuralNet.Assign | Common/SimpleNeuralNet.h:107-114 | Assignment gives the target the source's parameters, including assignment to itself. |
| CommonNet.SimpleNeuralNet.GetTotalParameterCount | Common/SimpleNeuralNet.h:138 | The parameter count of the architecture. |
| CommonNet.SimpleNeuralNet.GetParameter | Common/SimpleNeuralNet.h:149-158 | `GetParameter(layer, row, col)` refers to the value at that cell's flat index. |
| CommonNet.SimpleNeuralNet.SetParameter | Common/SimpleNeuralNet.h:149-158 | A write through the returned reference changes that cell and no other. |
| CommonNet.SimpleNeuralNet.ForeachParameters | Common/SimpleNeuralNet.h:165-179 | Every cell is visited once in the flat order and replaced by the callback's value. |
| CommonNet.SimpleNeuralNet.InitializeRandomParameters | Common/SimpleNeuralNet.h:219-236 | The parameters become the Xavier pack: each weight a sample of its layer's `[-limit, limit]`, taken in visit order, and each bias zero. |
| CommonNet.SimpleNeuralNet.FeedForward | Common/SimpleNeuralNet.h:132-135 | The outputs are the reference forward pass of the parameters, one per output neuron, all non-negative. |
| CommonNet.XavierLayers | Common/SimpleNeuralNet.h:219-236 | The Xavier pack has the architecture's shapes, with each cell given by its layer's limit and its visit index. |
| CommonNet.XavierCellInRange | Common/SimpleNeuralNet.h:224-235 | With draws in [0, 1], each Xavier weight lies within `±sqrt(6/(fanIn+fanOut))` and each bias is zero. |
| Lander03Net.SimpleNeuralNet.constructor | Lander03/lander03.cpp:51-65 | The constructor keeps the buffer and the architecture, and computes the parameter count and the widest layer. |
| Lander03Net.SimpleNeuralNet.GetTotalParameters | Lander03/lander03.cpp:113 | The stored count is the architecture's parameter count. |
| Lander03Net.SimpleNeuralNet.FeedForward | Lander03/lander03.cpp:68-110 | The outputs are the reference forward pass of the buffer read as layers. Output slots past the last layer's width are untouched. |
| Lander03Net.SimpleNeuralNet.ComputeLayer | Lander03/lander03.cpp:82-105 | One pass of the layer loop writes the layer's outputs, read from the buffer at its offset, and leaves `paramIdx` at the next layer's offset. |
| Lander03Net.SimpleNeuralNet.WeightedSum | Lander03/lander03.cpp:88-97 | A neuron's weighted inputs plus its bias, read from the buffer, with `paramIdx` advanced past that row. |
| Tc1.ExtendedInputs | tests/tc1/TemplateFeedForward.hpp:74-76 | The extended input vector is the inputs followed by a single 1. |
| Tc1.ActivateAll | tests/tc1/TemplateFeedForward.hpp:79 | `unaryExpr(Activate)` keeps the length, keeps positive entries and leaves nothing negative. |
| Tc1.ExtendedRow | tests/tc1/TemplateFeedForward.hpp:74-78 | A parameter row times the extended inputs is the neuron's weighted sum plus its bias. |
| Tc1.FeedForwardLayer | tests/tc1/TemplateFeedForward.hpp:71-80 | The single-matrix overload computes the reference layer transition. |
| Tc1.FeedForwardPack | tests/tc1/TemplateFeedForward.hpp:82-100 | The recursive overload over the matrix pack computes the reference forward pass. |
| Tc1.FillNetParams | tests/tc1/TemplateFeedForward.hpp:48-63 | Every entry is set to the callback's value, in the flat order, keeping the shapes. |
| Dp2.WeightRow | tests/dp2/SimpleNeuralNet.h:159-162 | Row `n1` of the row-major weights is the entries `n1 * prevLayerSize + n0`. |
| Dp2.LayerMatrixAt | tests/dp2/SimpleNeuralNet.h:157-165 | In the augmented form, cell `(r, c)` is weight `r * nIn + c`, and the last column is bias `r`. |
| Dp2.ToMatrices | tests/dp2/SimpleNeuralNet.h:137-141 | Correctly sized layer parameters, read as augmented matrices, have the architecture's shapes. |
| Dp2.SimpleNeuralNet.Create | tests/dp2/SimpleNeuralNet.h:66-86 | The constructor throws exactly when the architecture has fewer than two layers. Otherwise the network has zero-filled, correctly sized layers. |
| Dp2.SimpleNeuralNet.constructor | tests/dp2/SimpleNeuralNet.h:66-86 | Zero-filled weights and biases, sized `prev*cur` and `cur` for each transition. |
| Dp2.SimpleNeuralNet.Copy | tests/dp2/SimpleNeuralNet.h:89-93 | The copy has the same architecture and parameters. |
| Dp2.SimpleNeuralNet.Assign | tests/dp2/SimpleNeuralNet.h:96-106 | Between networks of equal architecture, assignment copies the layer parameters. |
| Dp2.SimpleNeuralNet.GetTotalParameterCount | tests/dp2/SimpleNeuralNet.h:187-189 | The parameter count of the architecture. |
| Dp2.SimpleNeuralNet.SetLayerParameters | tests/dp2/SimpleNeuralNet.h:192-197 | The layers are replaced when the number of transitions matches. |
| Dp2.SimpleNeuralNet.InitializeRandomParameters | tests/dp2/SimpleNeuralNet.h:238-257 | Layer by layer, each weight becomes the next draw scaled to its layer's Xavier range and each bias becomes zero. The draws are counted over weights only. |
| Dp2.SimpleNeuralNet.FeedForward | tests/dp2/SimpleNeuralNet.h:123-181 | The outputs are the reference forward pass of the layers read as augmented matrices. Slots past the output width are untouched. |
| Dp2.XavierLayerInRange | tests/dp2/SimpleNeuralNet.h:243-252 | With draws in [0, 1], every re-initialised weight lies within its layer's Xavier limit. |
| Dp2.DrawWeights | tests/dp2/SimpleNeuralNet.h:250-252 | The weights are overwritten in place by the uniform samples of the draws from `first` on, one per weight. |
| Dp2.SamplesAt | tests/dp2/SimpleNeuralNet.h:250-252 | Weight `j` of a drawn layer is the uniform sample of draw `first + j` in the Xavier range. |
| Dp2.ZeroBiases | tests/dp2/SimpleNeuralNet.h:255-256 | Every bias becomes zero and the length is kept. |
| Dp2.ComputeLayer | tests/dp2/SimpleNeuralNet.h:153-172 | The sums and activation of one transition produce the reference layer output. |
| Dp2.ActivateLayer | tests/dp2/SimpleNeuralNet.h:171-172 | Each of the first `n` cells is replaced by its ReLU and is then non-negative. |
| Dp2.RowDot | tests/dp2/SimpleNeuralNet.h:156-164 | The inner loop's sum is the dot product of the previous layer's values with one weight row. |
| Dp2.WeightedSum | tests/dp2/SimpleNeuralNet.h:155-165 | Neuron `n1`'s row-major weighted sum plus its bias equals the augmented row's affine value. |
| Fixtures.FillRow | tests/fixitures.h:145-146 | `nIn` consecutive buffer values go to one weight row, and nothing else changes. |
| Fixtures.FillLayerRow | tests/fixitures.h:143-148 | One row pass stores the next `nIn` values as weights and the one after as the bias, extending the filled prefix by a row. |
| Fixtures.FillLayer | tests/fixitures.h:139-149 | A layer filled from position `start` is the buffer block read as a matrix, with the index left past that block. |
| Fixtures.SetParamsDp2 | tests/fixitures.h:134-150 | `setParams_dp2` leaves the dp2 layers equal to the buffer read as layers and consumes exactly `TotalParams` values. |
| Fixtures.CopyInputs | tests/fixitures.h:106-121 | The element-by-element input copy is an exact copy. |
| Fixtures.SetParamsTc1 | tests/fixitures.h:128-132 | `fillNetParams` with `params[paramIdx++]` gives the buffer read as layers. |
| Fixtures.SetParamsCur | tests/fixitures.h:152-156 | `foreachParameters` with `params[paramIdx++]` gives the buffer read as layers. |
| Fixtures.FeedForwardTest.constructor | tests/fixitures.h:158-171 | The fixture holds a dp2 network, a current network and a tc1 pack, all of the test architecture. |
| Fixtures.FeedForwardTest.SetInputs | tests/fixitures.h:56-62 | Every representation receives the same inputs, and the parameters are unchanged. |
| Fixtures.FeedForwardTest.SetParams | tests/fixitures.h:64-70 | Every representation is loaded from the same buffer, and the inputs are unchanged. |
| Fixtures.FeedForwardTest.InitInputsAndParams | tests/fixitures.h:39-53 | After loading, every representation holds the given parameters and inputs. |
| Fixtures.FeedForwardTest.FeedForwardDp2 | tests/fixitures.h:86-91 | The dp2 output is the reference pass of its layers. |
| Fixtures.FeedForwardTest.FeedForwardTc1 | tests/fixitures.h:79-84 | The tc1 output is the reference pass of its pack. |
| Fixtures.FeedForwardTest.FeedForwardCur | tests/fixitures.h:93-98 | The current network's output is the reference pass of its parameters. |
| Fixtures.FeedForwardTest.CompareOutputs | tests/fixitures.h:79-98 | Once the representations are loaded from one buffer and one input vector, dp2, tc1 and the current network return the same output, the reference pass. |
| Fixtures.FlatAgainstMatrix | tests/FeedForward_test.cpp:5-11 | The flat network's output is the reference pass of its own buffer, and the matrix pack's is the reference pass of `params1`. The two outputs agree whenever the flat network's buffer holds `params1`. |
| Genetic.NewIndividual | Lander04/TrainingTaskGA.h:21-22 | A new individual has the given parameters and fitness `-max`. |
| Genetic.SortByFitness | Lander04/TrainingTaskGA.h:119 | `std::sort` with `operator<` as `fitness >` gives a permutation of the population in descending fitness. |
| Genetic.TournamentSize | Lander04/TrainingTaskGA.h:196-205 | The tournament looks at three indices, or fewer in a smaller population, and at least one when the population is not empty. |
| Genetic.WinnerIsBest | Lander04/TrainingTaskGA.h:204-211 | The winner is at least as fit as every contestant and strictly fitter than every earlier one. The first of equal bests wins. |
| Genetic.SelectParent | Lander04/TrainingTaskGA.h:193-214 | The selection loop returns the tournament winner over the shuffled indices. |
| Genetic.FitnessBounds | Lander04/TrainingTaskGA.h:144-148 | The mean of ten scores lies between the lowest and highest possible score. |
| Genetic.AverageScore | Lander04/TrainingTaskGA.h:144-148 | Fitness is the scores of seeds 1134 to 1143 summed in order and divided by 10. |
| Genetic.Evaluated | Lander04/TrainingTaskGA.h:142-149 | Evaluation keeps every individual's parameters and sets its fitness to the mean score. |
| Genetic.EvaluateAll | Lander04/TrainingTaskGA.h:134-150 | The evaluation loop produces the evaluated population. |
| Genetic.EliteCount | Lander04/TrainingTaskGA.h:164 | `size_t(populationSize * 0.1)` is the largest `e` with `10e <= populationSize`. |
| Genetic.UpdateBest | Lander04/TrainingTaskGA.h:122-125 | The best individual becomes the sorted head only when the head is strictly fitter, so the best fitness never drops. |
| Genetic.KeepElite | Lander04/TrainingTaskGA.h:167-170 | The elite loop keeps the first `eliteCount` individuals, or all of them if there are fewer. |
| Ga04.UniformParams | Lander04/TrainingTaskGA.h:89-94 | Parameter `j` is draw `j` scaled to `[-1, 1]`. |
| Ga04.UniformParamsInRange | Lander04/TrainingTaskGA.h:89-94 | Draws in [0, 1] give parameters in [-1, 1]. |
| Ga04.Crossed | Lander04/TrainingTaskGA.h:219-234 | The child has the first parent's length. |
| Ga04.CrossedFromParents | Lander04/TrainingTaskGA.h:225-231 | Child parameter `j` comes from parent 1 when its draw is below 0.5 and from parent 2 otherwise, so parents in [-1, 1] give a child in [-1, 1]. |
| Ga04.Mutated | Lander04/TrainingTaskGA.h:239-255 | Mutation keeps the length. |
| Ga04.MutatedProps | Lander04/TrainingTaskGA.h:244-254 | A parameter whose draw is at least the rate is unchanged. A selected parameter becomes `clamp(p + noise, -1, 1)`. Parameters in [-1, 1] stay there. |
| Ga04.Children | Lander04/TrainingTaskGA.h:173-187 | The children loop breeds the requested number of children. |
| Ga04.ChildrenProps | Lander04/TrainingTaskGA.h:173-187 | Children are unevaluated (fitness `-max`), have the parameter count, and stay in [-1, 1] when the parents are. |
| Ga04.TrainingTaskGA.constructor | Lander04/TrainingTaskGA.h:55-73 | The constructor stores the training parameters, sets generation 0 and an unevaluated best, and fills a population of uniform individuals that lie in [-1, 1]. |
| Ga04.TrainingTaskGA.InitializePopulation | Lander04/TrainingTaskGA.h:78-98 | `mPopulationSize` fresh individuals, each with `paramCount` uniform parameters. |
| Ga04.TrainingTaskGA.DrawPopulation | Lander04/TrainingTaskGA.h:90-97 | One fresh individual per draw list, in order. |
| Ga04.TrainingTaskGA.DrawParams | Lander04/TrainingTaskGA.h:92-94 | One uniform parameter per draw. |
| Ga04.TrainingTaskGA.RunIteration | Lander04/TrainingTaskGA.h:103-129 | The first generation is evaluated, and later ones are bred and then evaluated. The population is then sorted, the best individual updated, and the generation count advanced by one. The [-1, 1] bound is kept. Once training is complete it stays complete, and each call before then uses up exactly one remaining iteration. |
| Ga04.TrainingTaskGA.ProduceGeneration | Lander04/TrainingTaskGA.h:105-125 | The new population is the sorted evaluation of the old one (first generation) or of its bred successor (later ones), as a permutation in descending fitness order. The best individual is replaced only by a strictly fitter first individual, and the generation count is unchanged. |
| Ga04.TrainingTaskGA.IsTrainingComplete | Lander04/TrainingTaskGA.h:290 | Training is complete exactly when no iteration is left, that is, when the generation count has reached its maximum. |
| Ga04.TrainingTaskGA.SortAndKeepBest | Lander04/TrainingTaskGA.h:118-125 | The population is sorted by descending fitness and the best individual is updated from its head. |
| Ga04.TrainingTaskGA.EvaluatePopulation | Lander04/TrainingTaskGA.h:134-150 | Every fitness is set to its mean score. Parameters, generation and best individual are unchanged. |
| Ga04.TrainingTaskGA.Evolve | Lander04/TrainingTaskGA.h:155-188 | The new population is the elite prefix followed by children bred from the old population. The [-1, 1] bound is kept. |
| Ga04.TrainingTaskGA.Breed | Lander04/TrainingTaskGA.h:173-187 | The loop appends children until the population size is reached. |
| Ga04.TrainingTaskGA.BreedChild | Lander04/TrainingTaskGA.h:176-186 | Two tournament parents are crossed and the child is mutated. |
| Ga04.TrainingTaskGA.Crossover | Lander04/TrainingTaskGA.h:219-234 | A fresh, unevaluated child of the crossed parameters. |
| Ga04.TrainingTaskGA.Mutate | Lander04/TrainingTaskGA.h:239-255 | The parameters are mutated in place and the fitness is kept. |
| Ga05.CrossedPack | Lander05/TrainingTaskGA.h:240-265 | The crossover of two packs keeps the shapes. |
| Ga05.CrossedPackAt | Lander05/TrainingTaskGA.h:246-257 | Cell `(l, r, c)` of the child is parent 1's cell when the draw of its visit index is below 0.5, and parent 2's otherwise. |
| Ga05.CrossedPackInRange | Lander05/TrainingTaskGA.h:246-257 | Children of packs in [-1, 1] are in [-1, 1]. |
| Ga05.MutatedPack | Lander05/TrainingTaskGA.h:281-308 | Mutation of a pack keeps the shapes. |
| Ga05.MutatedPackAt | Lander05/TrainingTaskGA.h:290-304 | A cell is clamped with its noise when the draw of its visit index is below the rate, and is unchanged otherwise. |
| Ga05.MutatedPackInRange | Lander05/TrainingTaskGA.h:295-301 | Mutation keeps a pack in [-1, 1]. |
| Ga05.Children | Lander05/TrainingTaskGA.h:198-212 | The children loop breeds child `k` from draws `k`. |
| Ga05.ChildrenProps | Lander05/TrainingTaskGA.h:198-212 | Children are unevaluated, have the architecture's shapes, and stay in [-1, 1] when the population is. |
| Ga05.TrainingTaskGA.constructor | Lander05/TrainingTaskGA.h:89-122 | The constructor stores the parameters and sets generation 0. Each individual is the work buffer refilled from its draws. |
| Ga05.TrainingTaskGA.FillPopulation | Lander05/TrainingTaskGA.h:114-121 | The constructor's loop adds one unevaluated individual per draw list, shaped by the architecture. |
| Ga05.TrainingTaskGA.RunIteration | Lander05/TrainingTaskGA.h:126-146 | Later generations are bred first. The population is then evaluated and sorted, the best individual updated, and the count advanced. The [-1, 1] bound is kept. Once training is complete it stays complete, and each call before then uses up exactly one remaining iteration. |
| Ga05.TrainingTaskGA.ProduceGeneration | Lander05/TrainingTaskGA.h:128-142 | The new population is the sorted evaluation of the old one (first generation) or of its bred successor (later ones), as a permutation in descending fitness order. The best individual is replaced only by a strictly fitter first individual, and the generation count is unchanged. |
| Ga05.TrainingTaskGA.IsTrainingComplete | Lander05/TrainingTaskGA.h:342 | Training is complete exactly when no iteration is left, that is, when the generation count has reached its maximum. |
| Ga05.TrainingTaskGA.EvaluatePopulation | Lander05/TrainingTaskGA.h:150-176 | Every fitness is set to its mean score, and shapes and bound are kept. |
| Ga05.TrainingTaskGA.SortAndKeepBest | Lander05/TrainingTaskGA.h:135-142 | The population is sorted by descending fitness and the best individual is updated from its head. |
| Ga05.TrainingTaskGA.Evolve | Lander05/TrainingTaskGA.h:180-213 | The new population is the elite prefix followed by children bred from the old population. |
| Ga05.TrainingTaskGA.Breed | Lander05/TrainingTaskGA.h:198-212 | The loop appends children until the population size is reached. |
| Ga05.TrainingTaskGA.BreedChild | Lander05/TrainingTaskGA.h:201-211 | Two tournament parents are crossed and the child is mutated. |
| Ga05.TrainingTaskGA.Crossover | Lander05/TrainingTaskGA.h:240-265 | The per-layer loops build the crossed pack as a fresh, unevaluated individual. |
| Ga05.TrainingTaskGA.Mutate | Lander05/TrainingTaskGA.h:281-308 | The per-layer loops build the mutated pack and keep the fitness. |
| RandomSearch.NetworkSeed | Lander03/TrainingTaskRandom.h:44 | `(uint32_t)(epoch + 1111)` fits 32 bits and equals `epoch + 1111` when that fits. |
| RandomSearch.BestOfIsMax | Lander03/TrainingTaskRandom.h:53-57 | The kept score is at least the initial one and every score seen, and it is one of them. |
| RandomSearch.BestOfMonotone | Lander03/TrainingTaskRandom.h:53-57 | More epochs never lower the best score. |
| RandomSearch.TrainingTaskRandom.constructor | Lander03/TrainingTaskRandom.h:27-32 | The trainer starts at epoch 0 with best score `-max`. |
| RandomSearch.TrainingTaskRandom.RunIteration | Lander03/TrainingTaskRandom.h:39-61 | The epoch's network is scored. It replaces the best score and network only when strictly better, and the epoch advances by one. Once training is complete it stays complete, and each call before then uses up exactly one remaining iteration. |
| RandomSearch.TrainingTaskRandom.IsTrainingComplete | Lander03/TrainingTaskRandom.h:97 | Training is complete exactly when no iteration is left, that is, when the epoch count has reached its maximum. |
| RandomSearch.TrainingTaskRandom.KeepIfBetter | Lander03/TrainingTaskRandom.h:53-60 | The new network and its score are kept exactly when the score beats the best. |
| RandomSearch.TrainingTaskRandom.TestNetworkOnSimulation | Lander03/TrainingTaskRandom.h:69-88 | The score of the network's parameters on the given variant. |
| RandomSearch.BestScoreIsMaxTested | Lander03/TrainingTaskRandom.h:39-61 | After any number of epochs, the best score is the maximum of the scores seen, or still `-max` when no epoch beat it. |
| Res.Antithetic | Lander05/TrainingTaskRES.h:133-136 | The two members of a pair lie symmetrically around the centre, and their mean is the centre. |
| Res.SubUndoesAdd | Lander05/TrainingTaskRES.h:133-136 | Subtracting the perturbation undoes adding it. |
| Res.ZeroStepKeeps | Lander05/TrainingTaskRES.h:196-204 | A zero gradient leaves the central parameters unchanged. |
| Res.GradientIsWeightedNoise | Lander05/TrainingTaskRES.h:184-193 | Entry `j` of the gradient is the sum over pairs of `(f+ - f-) * epsilon[j]`. |
| Res.TiedPairsAddNothing | Lander05/TrainingTaskRES.h:184-193 | Pairs whose members score the same contribute nothing to the gradient. |
| Res.TiedGenerationKeepsCentral | Lander05/TrainingTaskRES.h:184-204 | A generation in which every pair ties leaves the central parameters unchanged. |
| Res.TrainingTaskRES.constructor | Lander05/TrainingTaskRES.h:62-80 | The central network is Xavier-initialised, with `sigma' = sigma / sqrt(total)` and `alpha' = alpha / total`. The best score is the centre's mean score. |
| Res.TrainingTaskRES.EvaluateNetwork | Lander05/TrainingTaskRES.h:85-96 | The mean score over seeds 1134 to 1163. |
| Res.TrainingTaskRES.PairResults | Lander05/TrainingTaskRES.h:119-167 | One result per noise vector, each carrying noise of the parameter count's length. |
| Res.TrainingTaskRES.PairResultsAt | Lander05/TrainingTaskRES.h:119-167 | Result `i` is the pair built around the centre from noise vector `i`. |
| Res.TrainingTaskRES.RunIteration | Lander05/TrainingTaskRES.h:101-215 | Once training is complete, nothing changes. Otherwise the centre moves by `ScaleFactor * gradient`, the best score is replaced only by a strictly better centre score, and the generation advances. The best score never drops. Once training is complete it stays complete, and each call before then uses up exactly one remaining iteration. |
| Res.TrainingTaskRES.IsTrainingComplete | Lander05/TrainingTaskRES.h:252 | Training is complete exactly when no iteration is left, that is, when the generation count has reached its maximum. |
| Res.TrainingTaskRES.EvaluatePerturbations | Lander05/TrainingTaskRES.h:119-167 | The perturbation loop records, in order, each pair's noise and both members' mean scores. |
| Res.TrainingTaskRES.EvaluatePair | Lander05/TrainingTaskRES.h:129-166 | The result of the pair built from one noise vector. |
| Res.TrainingTaskRES.Perturb | Lander05/TrainingTaskRES.h:129-138 | Two fresh networks, at the centre plus and minus `sigma' * epsilon`, cell by cell in visit order. |
| Res.TrainingTaskRES.AccumulateGradient | Lander05/TrainingTaskRES.h:184-193 | The gradient loop computes the gradient estimate from a zero start. |
| Res.TrainingTaskRES.AddGradient | Lander05/TrainingTaskRES.h:189-192 | The inner loop adds `diff * epsilon` to each entry. |
| Res.TrainingTaskRES.UpdateCentral | Lander05/TrainingTaskRES.h:196-204 | Every central cell, in visit order, is moved by `scale * g[j]`. |
| Simulation.AnimStep | Common/Simulation.h:49-90 | A landed or crashed lander is unchanged. A playing one ends with fuel >= 0, `x` in `[0, width]` and `y >= 0`, and keeps its state and thruster flags. |
| Simulation.AnimStepVelocityAndFuel | Common/Simulation.h:53-79 | Gravity always applies. Each active thruster pushes and burns fuel only while the tank is not empty, and the tank is floored at zero. |
| Simulation.NoFuelNoThrust | Common/Simulation.h:57-79 | Without fuel, the lander only falls and the tank reads zero. |
| Simulation.PadVerdict | Common/Simulation.h:117-135 | Over the pad, the lander lands when slow enough and crashes otherwise. Elsewhere nothing changes. Only the state is ever changed. |
| Simulation.TerrainVerdict | Common/Simulation.h:186-198 | The state changes exactly when a playing lander is at or below the ground, and then it becomes CRASHED. |
| Simulation.SimStepOutcome | Common/Simulation.h:220-232 | After a playing step, the pad verdict decides over the pad. Otherwise reaching the ground crashes and anything else stays playing. |
| Simulation.FinalStatesAbsorb | Common/Simulation.h:220-225 | Landed and crashed are final: further steps change nothing. |
| Simulation.PlayingRunsArePlayingThroughout | Common/Simulation.h:220-232 | A run that is still playing after `n` steps was playing at every earlier step. |
| Simulation.TerrainHeights | Common/Simulation.h:158-181 | The pad area is flat at the pad height, and every other point lies within 10 of the ground. |
| Simulation.OffsetsUsedOnce | Common/Simulation.h:170-180 | Points outside the pad area consume consecutive, distinct random offsets. |
| Simulation.Lander.constructor | Common/Simulation.h:36-47 | A new lander sits at the given position, at rest, with a full tank, no thrust and state PLAYING. |
| Simulation.Lander.AnimLander | Common/Simulation.h:49-90 | The in-place step updates the lander as `AnimStep` does. |
| Simulation.Lander.FireThrusters | Common/Simulation.h:56-76 | The thrust block applies each active thruster in turn. |
| Simulation.Lander.SpeedSquared | Common/Simulation.h:92-95 | The squared speed is non-negative. |
| Simulation.LandingPad.constructor | Common/Simulation.h:105-113 | The pad is 100 wide, centred at the drawn `x`, at height `SCREEN_HEIGHT - GROUND_LEVEL`. |
| Simulation.LandingPad.CheckPadLanding | Common/Simulation.h:117-135 | Returns whether the lander is over the pad, and updates its state as `PadVerdict` does. |
| Simulation.Terrain.constructor | Common/Simulation.h:151-182 | The terrain has the ground level and 11 points laid out from the pad and the offsets. |
| Simulation.Terrain.LayOutPoints | Common/Simulation.h:158-181 | Point `i` is at `i` segment widths: flat in the pad area, ground plus the next offset elsewhere. |
| Simulation.Terrain.CheckTerrainCollision | Common/Simulation.h:186-198 | Returns true exactly when a playing lander is at or below the ground, which then crashes. |
| Simulation.Sim.constructor | Common/Simulation.h:212-218 | The lander starts playing at `(width/2, height/4)`, with the pad and terrain built from the draws. |
| Simulation.Sim.AnimateSim | Common/Simulation.h:220-232 | One simulation step is motion, then the pad check, then the terrain check. A finished lander stays as it is. |
| FixedBrain.GetBrainActions | Lander02/lander02.cpp:21-60 | Every command is 0 or 1, and left and right never fire together. |
| FixedBrain.ActionConditions | Lander02/lander02.cpp:34-56 | Each command in terms of the state, in both directions: left, right (only when left does not fire) and up. |
| FixedBrain.CenteredNoLateralThrust | Lander02/lander02.cpp:36-46 | Over the middle half of the pad, no lateral thrust fires. |
| FixedBrain.MirrorSwapsLateral | Lander02/lander02.cpp:36-56 | Mirroring the scene about the pad swaps left and right thrust and keeps up. |
| FastRandom.Rounds | Common/Utils.h:10 | A call runs between 2 and 5 rounds. |
| FastRandom.NonZero | Common/Utils.h:14 | The state mixed is never zero, and is the state itself when that is not zero. |
| FastRandom.ScrambleNonZero | Common/Utils.h:20 | Multiplying a non-zero state by the odd multiplier modulo 2^64 never gives zero. |
| FastRandom.RoundNonZero | Common/Utils.h:13-20 | A round never leaves the state at zero, whatever state it starts from. |
| FastRandom.NextNonZero | Common/Utils.h:7-23 | The state a call leaves, which is also the value it returns, is never zero. So after the first call the zero-state replacement never fires again. |
| FastRandom.FloatBits | Common/Utils.h:27 | The shifted value is below `2^53`, so scaling it by `2^-53` stays within [0, 1]. |
| FastRandom.RandomState.constructor | Common/Utils.h:7 | The state word holds the given seed. |
| FastRandom.RandomState.FastRandom | Common/Utils.h:7-23 | The loop leaves the state after `Rounds(entry)` rounds, and the returned value is that new state. |
| FastRandom.RandomState.FastRandomFloatBits | Common/Utils.h:25-28 | Advances the state once and returns the top 53 bits of the new value. |
| StripWhitespace.RStrip | strip_whitespace.py:17 | `rstrip()` returns a prefix that leaves off only whitespace and does not end in whitespace. |
| StripWhitespace.RStripNewlines | strip_whitespace.py:17 | `rstrip('\n')` returns a prefix that leaves off only newlines and does not end in a newline. |
| StripWhitespace.RStripIdempotent | strip_whitespace.py:21 | Stripping twice strips nothing more. |
| StripWhitespace.RStripAppendSpace | strip_whitespace.py:21 | Whitespace appended to a line is stripped along with the rest. |
| StripWhitespace.StripLineProps | strip_whitespace.py:21 | A stripped line keeps its final newline exactly when it had one, and has no trailing whitespace before it. |
| StripWhitespace.StripLineIdempotent | strip_whitespace.py:21 | Stripping a stripped line changes nothing. |
| StripWhitespace.StripLines | strip_whitespace.py:21 | The comprehension strips every line and keeps the line count. |
| StripWhitespace.StripLinesProps | strip_whitespace.py:21 | The transform keeps the line count, leaves no trailing whitespace, and is idempotent. |
| StripWhitespace.DetectLine | strip_whitespace.py:17 | For a line as `readlines` returns it, the check fires exactly when stripping changes the line. |
| StripWhitespace.DetectionExact | strip_whitespace.py:17-21 | A file is flagged exactly when the transform would change it. |
| StripWhitespace.StripFile | strip_whitespace.py:10-31 | Lines are written back exactly when trailing whitespace is detected, and what is written is the stripped lines. |
| StripWhitespace.SelectedNamesIff | strip_whitespace.py:50-51 | In a directory outside `node_modules`, a file is selected exactly when it has a target extension. |
| StripWhitespace.SelectedInIff | strip_whitespace.py:45-51 | In one directory, a file is selected exactly when the directory holds it and it should be processed. |
| StripWhitespace.SelectedIff | strip_whitespace.py:45-55 | Over the whole walk, a file is selected exactly when some directory holds it, that path does not contain `node_modules`, and its name has a target extension. |
| StripWhitespace.ProcessTree | strip_whitespace.py:33-59 | The main loop processes exactly the selected files, in walk order, and both counters equal their number. |

## Left out

- Threads: `ParallelTasks`, `useThread == true` and `WaitAll`. Evaluation is modelled inline, which gives the same values because each task writes only its own individual or result slot.
- Random number generators: `std::mt19937`, `std::shuffle`, the uniform and normal distributions, and raylib `GetRandomValue`. Their outputs are inputs to the model, so the interleaving of draws within one generator stream is not modelled.
- The simulation score: `TestNetworkOnSimulation`'s episode loop, `GetElapsedTimeS`, `IsSimulationComplete` and `CalculateScore`. The score is the oracle parameter `score`/`simulate`, because the state vector, the action thresholds and the score formula are not in the modelled files.
- Floating point: `float`/`double` rounding, the `(float)` casts, and the `0.3f`, `0.05f`, `0.5f` literals. All are exact reals.
- Square root: `std::sqrt` is the parameter `sqrt`. `CalcSpeed() <= LANDING_SAFE_SPEED` is stated as `vx^2 + vy^2 <= safe^2` for a non-negative safe speed.
- Simulation.Lander.SpeedSquared: stands for `CalcSpeed`. It states the square of the speed, because the square root is not modelled.
- FastRandom.RandomState.FastRandomFloatBits: states the integer part of `FastRandomFloat`, not the float product. `FastRandomRange` is left out as floating-point arithmetic.
- Drawing, the UI, keyboard input, `printf` and the program `main` functions are left out as I/O.
- strip_whitespace.py's file I/O, `os.walk`, `os.path.join`, `os.getcwd`, the exception handler and the `print` output are left out as I/O. The walk is an input list of directories with their file names.
- dp1/SimpleNeuralNet.h is not part of this model. The fixture's dp1 network, inputs and parameters are left out.
- Lander03's `getNeuralNetBrainActions` is an empty stub and is left out.
- The const overload of `foreachParameters` only forwards to the mutable one and is left out.
- tc1's `FeedForward` overload taking the whole `NetParam` through `std::apply` is modelled as `Tc1.FeedForwardPack`.
- Lander05's `calcMeanAndStdDev` and the `USE_MUTATION_STDDEV` branch are compiled out (`#define USE_MUTATION_STDDEV 0`). The `#if 0` blocks of the RES trainer and the alternative initialisers under `SNN_INIT_RANDOM_UNIFORM` / `SNN_INIT_HE_NORMAL` are compiled out too. All are left out.
- Genetic.EliteCount: the model uses the exact quotient `populationSize / 10`. The double product `populationSize * 0.1` truncates to it only below 2^52. Above that it can round up, as for 9000000000000009, whose product truncates to 900000000000001.
- Genetic.SortByFitness: `std::sort` is not stable and leaves the order of equal fitnesses unspecified. The model fixes one such order, an insertion sort, and states only what holds of every order: descending fitness and the same multiset.
- CommonNet.SimpleNeuralNet.constructor: Eigen leaves fixed-size matrices uninitialised, so the contract states only the shapes. The model's matrices start at zero.
- Dp2.SimpleNeuralNet.InitializeRandomParameters: the `seed`, `minVal` and `maxVal` arguments are replaced by the draws. `minVal` and `maxVal` are unused in the Xavier branch.
- Res.TrainingTaskRES.constructor: requires a non-zero parameter count and `sqrt(total) != 0`, because `sigma / sqrt(total)` and `alpha / total` are floating divisions by zero otherwise.
- The trainers' getters (`GetCurrentGeneration`, `GetMaxGenerations`, `GetBestScore`, `GetPopulationSize`, `GetBestNetworkParameters`, `GetPopulation`, `GetCurrentEpoch`, `GetMaxEpochs`, `GetBestNetwork`, `GetSigma`, `GetAlpha`, `GetNumPerturbations`, `GetCentralNetwork`) are kept as one-line field reads without contracts. They promise nothing beyond the field they return.
- Res.TrainingTaskRES.RunIteration: requires `numPerturbations > 0` and `sigma' != 0` while training runs, because `ScaleFactor` divides by both. The "could save the best network" comment is not code and is not modelled.
- Ga04.TrainingTaskGA.RunIteration: requires a non-empty population, because the source reads `mPopulation[0]` without a check. Ga05.TrainingTaskGA.RunIteration has the same requirement.
- Simulation.AnimStep: requires `SCREEN_WIDTH >= 0`, the precondition of `std::clamp(x, 0, SCREEN_WIDTH)`.
- Simulation.LandingPad.constructor: the pad `x` is any integer. The range `GetRandomValue(mPadWidth, SCREEN_WIDTH - mPadWidth)` promises is not assumed.
- The Lander02 state and action arrays are records with named fields, because the slot constants (`SIM_STATE_LANDER_X`, `ACTION_LEFT`, ...) are defined in a header that is not part of this model.
- Fixtures.FlatAgainstMatrix: tests/fixiture.hpp builds its flat `SimpleNeuralNet` from the architecture alone, and that class is not defined in the modelled files. The model stands the Lander03 flat network in for it, which takes its buffer in the constructor. The fixture never loads `params1` into that network, so the model takes the network's buffer as a separate input. The outputs are promised equal only when that buffer holds `params1`, a link the fixture as written does not make.
- Benchmarks, the standalone matrix multiplication test and the Lander01 driver are left out as drivers outside the core.
