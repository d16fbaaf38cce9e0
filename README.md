# nanopores bookkeeping, modelled in Dafny

This project models the deterministic bookkeeping that the nanopores package and its
scripts wrap around the random-walk engine and the PDE solver, and proves properties
of that model. Six Python sources are covered, one Dafny module each, plus two shared
modules:

- `PyValues` (values.dfy): the Python values that sit in keyword-argument dicts
  (`None`, bools, ints, floats, strings, lists), dicts as maps, the exceptions the code
  can raise, and `Result`/`Option`.
- `Plane` (plane.dfy): points `(r, z)` of the axisymmetric half plane, and the
  "mirror z and reverse the vertex order" operation used by the pore polygons.
- `ParamSweep` (sweep.dfy), from np/nanopores/scripts/simulation2D.py:
  - which keyword arguments are iterated and in which order;
  - the list of parameter dicts that `combinations` expands;
  - `join_dicts`, the sweep stamp, and the single-iterable variant;
  - the output filter of `simulation2D` and the failures of its `post_iteration`;
  - the tables `post_iteration` builds and the chunk layout it slices.
- `ExitTime` (exittime.dfy), from scripts/ahem/rw.py:
  - the `success` and `fail` stopping predicates;
  - the top-up rule of `get_results` over a store of saved walks (a class whose map
    field the method updates);
  - the exit-probability curve of `plot_evolution`;
  - `end_probability`.
- `WeiReceptor` (receptor.dfy), from scripts/wei/run_wei.py:
  - the binding-zone keyword record;
  - where the receptor ball is placed, with the random walk as a class whose domain
    list grows;
  - the bin edges and batches of `tauoff_wei`, including the halving loop;
  - which binding events `draw_empirically` keeps, and the gamma shapes it passes.
- `Pores` (pores.dfy), from nanopores/geometries/allpores.py:
  - registry lookup by geometry name;
  - the defaults merged into each pore object (a class with `params`, `h` and
    `reconstruct` fields);
  - the PughPore size derivation and dimension dispatch;
  - the WeiPore layer polygons, their upright and flipped forms, and the receptor and
    synonyms of `WeiPore.pore`.
- `SurfaceDistance` (distance.dfy), from np-scripts/random_walk/plot2.py:
  - the 96-corner alpha-hemolysin outline;
  - the cumulative exit counts as an array filled in a loop, then scaled in place;
  - the point-to-segment value `normal`, with a proof that it is the perpendicular
    distance whenever the foot of the perpendicular lies strictly inside the segment;
  - `distance_to_surface`, as the minimum over the vertex and segment arrays;
  - the closed outline arrays.
- `Howorka` (howorka.dfy), from nanopores/models/Howorka.py:
  - the geometry and physics parameter records;
  - the 8-vertex plotting polygon, which is symmetric in z;
  - the unpacking of force tables in `F_explicit` (a loop) and `F_implicit` (a
    comprehension), proved to agree.

Python dict iteration order is not fixed by the language, so where the code iterates
over `params.items()` the model takes the order as an explicit parameter `order`.
Distances in plot2.py are modelled by their squares, and sentinel 100 becomes 10000.
The square root is increasing, so every comparison and every minimum the script takes
is the same on squares.

One point where the code decides differently from a natural reading: `normal` with
equal end points A = B does not fail. The coordinates are numpy scalars, so `c` is the
NaN of 0/0, every comparison with it is false, and the sentinel is returned.
`NormalSq` models that.

## Model

| member | source | states |
|---|---|---|
| PyValues.ForItems | np/nanopores/scripts/simulation2D.py:85 | a `for` loop runs over a list's items or a string's characters; any other value raises TypeError |
| Plane.MirrorReversed | nanopores/geometries/allpores.py:163-169 | entry i is vertex n-1-i with z negated and r kept |
| Plane.MirrorReversedInvolution | nanopores/geometries/allpores.py:162-169 | mirroring and reversing twice gives back the polygon |
| ParamSweep.IterableKeys | np/nanopores/scripts/simulation2D.py:37-40 | the collected keys are exactly the keys whose value has `__iter__`, each once, in iteration order |
| ParamSweep.IterableKeysInMembers | np/nanopores/scripts/simulation2D.py:37-40 | a key is collected iff it is scanned, present and iterable; no repeats when the scan order has none |
| ParamSweep.RemoveFirst | np/nanopores/scripts/simulation2D.py:44 | `list.remove` drops one occurrence: length one less, multiset less that element |
| ParamSweep.MoveToFront | np/nanopores/scripts/simulation2D.py:44-45 | the requested key comes first, followed by the other keys; same multiset, still without repeats |
| ParamSweep.ResolveIterkeys | np/nanopores/scripts/simulation2D.py:41-47 | None gives all iterable keys. A singleton gives that key first and then the rest, or ValueError when the key is not iterable. Another list is kept iff its length equals the number of iterable keys, and otherwise raises "Your iterkeys are wrong!" |
| ParamSweep.ResolvedKeysIterable | np/nanopores/scripts/simulation2D.py:36-47 | with no request or a singleton request, every resolved key is an iterable parameter, each once |
| ParamSweep.Base | np/nanopores/scripts/simulation2D.py:82 | the starting dict holds exactly the non-iterated keys, with their values |
| ParamSweep.Assign | np/nanopores/scripts/simulation2D.py:86-89 | every copied dict gets `key` set to the value and is otherwise unchanged |
| ParamSweep.Combinations | np/nanopores/scripts/simulation2D.py:79-92 | the nested loops succeed iff every iterated key is present and loopable (else KeyError or TypeError), and build the expansion `CombinationsOf` |
| ParamSweep.StepLoop | np/nanopores/scripts/simulation2D.py:84-89 | one pass over a key's values builds `Step`: for each value, in order, a copy of every dict of P with the key set to it |
| ParamSweep.ExpansionAt | np/nanopores/scripts/simulation2D.py:83-90 | entry i·\|P\|+t of the expansion is dict t of P overridden by the i-th combination of values |
| ParamSweep.ChoiceShape | np/nanopores/scripts/simulation2D.py:83-90 | every combination assigns exactly the iterated keys, each to one of its listed values |
| ParamSweep.CombinationsSize | np/nanopores/scripts/simulation2D.py:79-92 | the result has the product of the value-list lengths many dicts; with no iterated keys it is the one dict of all parameters |
| ParamSweep.CombinationsOf | np/nanopores/scripts/simulation2D.py:79-92 | the reference expansion `Combinations` is proved equal to; CombinationsSize, CombinationsContents and FirstKeyFastest state its shape |
| ParamSweep.CombinationsContents | np/nanopores/scripts/simulation2D.py:82-89 | every output dict has the keys of `dic`; non-iterated keys keep their value, iterated keys hold one of their values |
| ParamSweep.FirstKeyFastest | np/nanopores/scripts/simulation2D.py:84-89 | entry j holds the (j mod n0)-th value of the first iterated key |
| ParamSweep.CombinationsSplit | np/nanopores/scripts/simulation2D.py:127-133 | the full sweep has nx times as many dicts as the combinations of the remaining keys over the restricted stamp |
| ParamSweep.PostIterationChunk | np/nanopores/scripts/simulation2D.py:127-147 | entry i·nx+t of the full sweep is the i-th parameter set of the remaining keys, with the plot key at its t-th value; chunk i is exactly that set against the plotted values in order |
| ParamSweep.JoinDicts | np/nanopores/scripts/simulation2D.py:94-96 | the result is the transpose: one column per key of the first dict, with out[k][j] = list[j][k]. It is IndexError on an empty list and a KeyError when a later dict lacks a key |
| ParamSweep.InputColumns | np/nanopores/scripts/simulation2D.py:108-114 | the input table has one column per parameter, each as long as the sweep |
| ParamSweep.Stamp | np/nanopores/scripts/simulation2D.py:50-52 | the stamp holds every input parameter unchanged, plus the iteration order and the method name |
| ParamSweep.Unstamp | np/nanopores/scripts/simulation2D.py:109-110 | popping "method" and "iterkeys" leaves exactly the other keys |
| ParamSweep.StampRoundTrip | np/nanopores/scripts/simulation2D.py:50-52 | popping a stamp gives back the parameters and the iteration order |
| ParamSweep.PostIteration | np/nanopores/scripts/simulation2D.py:98-133 | the join error of the results, then the stamp's KeyError, then the expansion error pass through. An empty sweep or no iterated key is IndexError, and a plotted key listed twice is KeyError. Otherwise it gives the result and input tables, the plotted key iterkeys[0] with its values, and the expansion of the other keys |
| ParamSweep.InputTables | np/nanopores/scripts/simulation2D.py:111-133 | after the pops: the expansion error passes through, an empty input table or no iterated key is IndexError, a plotted key listed twice is KeyError, and otherwise the input table, iterkeys[0] with its values, and the expansion of the remaining keys |
| ParamSweep.IterateInParallel | np/nanopores/scripts/simulation2D.py:29-76 | succeeds iff the order resolves and the keys expand; then result j is `method` applied to combination j, and the stamp is Stamp(params, keys, name) |
| ParamSweep.MapOverCombinations | np/nanopores/scripts/simulation2D.py:49-65 | succeeds iff the keys expand (else KeyError or TypeError); then result j is `method` applied to combination j, and the stamp is Stamp(params, keys, name) |
| ParamSweep.FindSingleIterKey | np/nanopores/scripts/simulation2D.py:167-175 | finds the key iff exactly one parameter is iterable; with none or with several it raises the matching message |
| ParamSweep.IterateInParallelOne | np/nanopores/scripts/simulation2D.py:160-196 | maps `method` over the values of the single iterable parameter in order; the stamp adds "iterated" and "method" |
| ParamSweep.FilterOutputs | np/nanopores/scripts/simulation2D.py:234-237 | keeps exactly the requested outputs with their values; KeyError iff one is missing |
| ParamSweep.CollectResults | np/nanopores/scripts/simulation2D.py:234-237 | fails, with a KeyError, iff some result lacks a requested output; otherwise entry j is the cut result of combination j, and the list joins iff the sweep is `Joinable` |
| ParamSweep.JoinedResults | np/nanopores/scripts/simulation2D.py:94-96 | the cut results join iff the sweep is non-empty and every result has the first one's keys |
| ParamSweep.Simulation2D | np/nanopores/scripts/simulation2D.py:233-247 | an `iterkeys` keyword together with `plot`, or a `method` keyword, is the TypeError of a keyword given twice. Otherwise it is Ok iff the iteration order resolves, the sweep expands, at least one key is iterated, and the results join: the sweep is non-empty, every result has the requested outputs, and every result has the first one's keys. Then result j is `calculate2D` of combination j, cut to `outputs` when given, and with `plot` the plotted key comes first. Without `plot`, an `iterkeys` keyword is bound as the requested order, taken out of the parameters, and also needs a non-repeated first key. An order error passes through |
| ParamSweep.SweepAndPost | np/nanopores/scripts/simulation2D.py:98-133 | once the keywords are bound: Ok iff the requested order resolves, expands, is non-empty with its first key listed once, and the results join; then result j is the cut `calculate2D` of combination j |
| ParamSweep.RequestedOrder | np/nanopores/scripts/simulation2D.py:41-44 | the forwarded `iterkeys` value: None asks for no order, a name list is that order (the value is the list of those names), and a number or flag is the TypeError of `len` |
| ParamSweep.BoundKeywordOrder | np/nanopores/scripts/simulation2D.py:29 | binding a keyword to a parameter leaves `**params` in its order without that key |
| ExitTime.CountTrue | scripts/ahem/rw.py:123 | `sum(success)` is at most the number of walks |
| ExitTime.Compress | scripts/ahem/rw.py:122 | `times[success]` has one entry per set flag |
| ExitTime.CompressRank | scripts/ahem/rw.py:122 | flag j set means `xs[j]` lands at the position given by the set flags before j |
| ExitTime.Success | scripts/ahem/rw.py:67-68 | entry i holds iff walk i is in the channel and z ≤ zstop |
| ExitTime.SuccessMonotone | scripts/ahem/rw.py:67-68 | lowering zstop never adds successes |
| ExitTime.Fail | scripts/ahem/rw.py:70-75 | one entry per alive walk, all true once t > Tmax |
| ExitTime.FailOfWalk | scripts/ahem/rw.py:70-75 | the entry of alive walk j holds iff t > Tmax, or its free plus bound time exceeds 5e6, or r²+z² > Rmax² |
| ExitTime.KeyOf | scripts/ahem/rw.py:99-100 | stored walks are keyed by name and every parameter except N |
| ExitTime.Deficit | scripts/ahem/rw.py:105-106 | a run is due iff N − stored > 0 and calc, and its size brings the count to N |
| ExitTime.DeficitTopsUp | scripts/ahem/rw.py:104-112 | after topping up, the store has at least N walks and no further run is due |
| ExitTime.ResultStore.GetResults | scripts/ahem/rw.py:97-113 | with nothing stored the count is 0. The store gains exactly N_missing new walks when a run is due and is otherwise unchanged. The stored walks are returned, KeyError when there are none, and a missing or non-integer N is an error |
| ExitTime.TopUpReachesN | scripts/ahem/rw.py:105-110 | the new run has only N changed, and when it returns N_missing walks the store holds exactly N |
| ExitTime.SortedCopy | scripts/ahem/rw.py:122 | `sorted` keeps every entry (same multiset and length) |
| ExitTime.SortedCopySorted | scripts/ahem/rw.py:122 | the sorted copy ascends |
| ExitTime.EvolutionCurve | scripts/ahem/rw.py:117-126 | fails with IndexError iff no walk succeeded; otherwise t is the sorted success times plus endtime, p is i/N with the last value repeated, and both have length #successes+1 |
| ExitTime.CurveOf | scripts/ahem/rw.py:121-125 | the reference description of the curve: k > 0 successes, t the sorted success times plus endtime, p[i] = i/N and p[k] = p[k−1] |
| ExitTime.CurveTimesSorted | scripts/ahem/rw.py:116-124 | the curve times ascend when every exit is before endtime |
| ExitTime.CurveProbabilities | scripts/ahem/rw.py:123-126 | p ascends and lies in [0, 1), so the variance p(1−p) under the square root is not negative |
| ExitTime.EndProbability | scripts/ahem/rw.py:137-139 | the mean of `success` is the number of successes over the number of walks, in [0, 1]; there is no value for no walks |
| ExitTime.CurveEndsBelowEndProbability | scripts/ahem/rw.py:123-139 | the curve's last point is the end probability less 1/N |
| WeiReceptor.DistRec | scripts/wei/run_wei.py:50-52 | distrec = 4 − rMolecule − rrec |
| WeiReceptor.ReceptorParams | scripts/wei/run_wei.py:55-71 | the record has exactly the ten keys. t and ka are copied and ra = distrec. dx comes from params when present and is 1 otherwise. The fixed flags are exclusion False, walldist 1, binding True, "zone", collect_stats_mode True, use_force True. KeyError for a missing tbind or ka |
| WeiReceptor.ReceptorParamsReadsOnly | scripts/wei/run_wei.py:55-71 | the record depends only on tbind, ka and dx |
| WeiReceptor.ReceptorHeightRange | scripts/wei/run_wei.py:107 | zreceptor 0 and 1 give zbot+rrec and ztop−rrec; for zreceptor in [0, 1] the ball lies between zbot and ztop; the height increases with zreceptor |
| WeiReceptor.ReceptorHeight | scripts/wei/run_wei.py:107 | zbot + rrec + (ztop − zbot − 2·rrec)·zreceptor; ReceptorHeightRange states its range |
| WeiReceptor.ReceptorBall | scripts/wei/run_wei.py:107-111 | the centre is (radius_at(zrec) − distrec, 0, zrec) and the radius is rrec |
| WeiReceptor.SetupReceptor | scripts/wei/run_wei.py:103-113 | exactly one receptor domain is appended, with that ball and record; on a missing or non-numeric zreceptor or a record error, the walk is unchanged |
| WeiReceptor.Walk.AddDomain | scripts/wei/run_wei.py:112 | appends the domain to the walk's domain list and changes nothing else |
| WeiReceptor.TauoffEdges | scripts/wei/run_wei.py:170-171 | the edges are 0, then 0.25+0.55·(i−1) for i = 1..N, then 20, so N+2 edges |
| WeiReceptor.TauoffEdgesIncreasing | scripts/wei/run_wei.py:170-171 | the edges strictly ascend iff N ≤ 36 |
| WeiReceptor.Trunc | scripts/wei/run_wei.py:182 | `int()` of a float truncates toward zero |
| WeiReceptor.TruncShare | scripts/wei/run_wei.py:182 | int(counts[0]·frac), with frac = 2^−k, is the truncated quotient by 2^k |
| WeiReceptor.ShareHalf | scripts/wei/run_wei.py:182-183 | each halving of frac halves the share (integer division) |
| WeiReceptor.FirstBinBatches | scripts/wei/run_wei.py:181-186 | the halving loop ends, and yields the batches `Halvings` defines |
| WeiReceptor.HalvingsShape | scripts/wei/run_wei.py:181-186 | every batch has at least one sample on an interval [a, 2a]. The intervals tile downward from bins[1] without gaps, and the batch sizes add up to at most counts[0] |
| WeiReceptor.Halvings | scripts/wei/run_wei.py:181-186 | the batches the halving loop draws, one per pass while int(counts[0]·frac) > 1; FirstBinBatches and HalvingsShape state it |
| WeiReceptor.BinBatches | scripts/wei/run_wei.py:189-192 | batch j samples counts[j+1] values between edges j+1 and j+2 |
| WeiReceptor.TauoffWei | scripts/wei/run_wei.py:155-195 | IndexError for no counts and ValueError for a negative count; otherwise the halving batches of the first bin followed by one batch per remaining bin |
| WeiReceptor.TauoffShape | scripts/wei/run_wei.py:164-192 | the bin batches are contiguous from bins[1] to 20, the halving batches end at bins[1], and the total sample count is at most the histogram total |
| WeiReceptor.BinTotal | scripts/wei/run_wei.py:189-192 | the first m bin batches carry counts[1..m] samples in total |
| WeiReceptor.Positives | scripts/wei/run_wei.py:132 | `nonzero(bindings > 0)` gives exactly the positive positions, ascending |
| WeiReceptor.SliceTo | scripts/wei/run_wei.py:135 | Python's `[:stop]`, including a negative stop |
| WeiReceptor.KeptEventsCount | scripts/wei/run_wei.py:133-135 | min(n0, nmax) events are kept (a negative nmax drops from the end), and they are the first ones |
| WeiReceptor.KeptEvents | scripts/wei/run_wei.py:133-135 | `ibind[:min(n0, nmax)]` with Python slice semantics; KeptEventsCount states its length and entries |
| WeiReceptor.BindingCounts | scripts/wei/run_wei.py:128-130 | a walk gets its Poisson draw where the mean is positive, and 0 elsewhere |
| WeiReceptor.GammaShapesAsWrittenAreOne | scripts/wei/run_wei.py:128-144 | as written, every gamma shape is 1 |
| WeiReceptor.GammaShapesAsWritten | scripts/wei/run_wei.py:128-144 | one shape per kept event, each 0 or 1, as the bool array stores it |
| WeiReceptor.GammaShapesAreCounts | scripts/wei/run_wei.py:128-144 | with integer storage, shape j is the Poisson count of kept event j, which is at least 1 |
| WeiReceptor.GammaShapes | scripts/wei/run_wei.py:128-144 | one shape per kept event; GammaShapesAreCounts states that each is that event's Poisson count |
| WeiReceptor.GammaShapeCounterexample | scripts/wei/run_wei.py:128-144 | one walk with two or more bindings: shape 1 as written, its count when corrected |
| Pores.LookupGeometry | nanopores/geometries/allpores.py:200-204 | each of "wei", "pugh" and "alphahem" selects its class; any other name, or None, is KeyError |
| Pores.PughDefault | nanopores/geometries/allpores.py:55-60 | the pughpore parameters with geoname "pugh", diamPore 6, diamDNA 2.5 and dim 3 set |
| Pores.AlphaHemDefault | nanopores/geometries/allpores.py:92-101 | the AlphaHem default table, key by key; its properties are stated through `Merged` and `Default` |
| Pores.WeiDefault | nanopores/geometries/allpores.py:113-132 | the WeiPore default table, key by key; WeiKeepsDefaultMeshSize and WeiPoreReceptor state what it provides |
| Pores.Merged | nanopores/geometries/allpores.py:39 | `Params(default, **params)`: every key of either, with the caller's value winning |
| Pores.KeywordOr | nanopores/geometries/allpores.py:38 | a keyword argument, or its default 1 or False when absent |
| Pores.RestOf | nanopores/geometries/allpores.py:38 | `**params` of `get_geo` is the call without h and reconstruct |
| Pores.WeiKeepsDefaultMeshSize | nanopores/geometries/allpores.py:38-41 | the WeiPore params always keep the default h = 10 and reconstruct = False, whatever the caller passes |
| Pores.NumParam | nanopores/geometries/allpores.py:66-67 | attribute access to a parameter: its number, AttributeError when absent, TypeError when not a number |
| Pores.PughSizesOf | nanopores/geometries/allpores.py:68-72 | l3 = dP, l4 = l1, and l0, l1, l2, l3 are successive steps of 2·dDNA |
| Pores.PughSizesOrdered | nanopores/geometries/allpores.py:68-72 | l0 ≥ l1 ≥ l2 ≥ l3 = dP when dDNA ≥ 0, with l0 − l3 = 6·dDNA |
| Pores.PughParams | nanopores/geometries/allpores.py:65-73 | AttributeError without diamPore; with diamPore None the params are unchanged; otherwise AttributeError without diamDNA, and TypeError unless both diameters are numbers |
| Pores.PughRebuild | nanopores/geometries/allpores.py:63-73 | deriving the layer diameters again from the updated params changes nothing, so building again gives the same geometry |
| Pores.PughParamsOverride | nanopores/geometries/allpores.py:65-73 | with diamPore set, `update` writes l0..l4 from the sizes and keeps every other entry |
| Pores.PughBuilderFor | nanopores/geometries/allpores.py:74-88 | dim 3, 2 and 1 pick the 3-D, cylindrical and 1-D builders; another dim leaves `geo` unbound (UnboundLocalError) |
| Pores.PughBuildDispatch | nanopores/geometries/allpores.py:74-88 | a molecule snap is attached iff x0 is set and dim is 3 or 2: a sphere for 3 and a circle for 2, with the molecule radius and centre |
| Pores.PughBuild | nanopores/geometries/allpores.py:62-88 | the size derivation's error passes through; otherwise Ok iff the dimension picks a builder and, for 3 and 2, x0 is set and rMolecule too when x0 is not None. The builder gets the updated params and h |
| Pores.SplitRadius | nanopores/geometries/allpores.py:152-153 | Rsplit = 0.7·R + 0.3·r1 lies between r1 and R |
| Pores.WeiPolygons | nanopores/geometries/allpores.py:135-171 | the upright layers without `reverse`; with it the same pore mirrored in z, each corner list reversed, with the same Rsplit |
| Pores.UprightLayers | nanopores/geometries/allpores.py:155-161 | 6, 6 and 4 corners, and Rsplit = 0.7·R + 0.3·r1 |
| Pores.FlippedLayers | nanopores/geometries/allpores.py:162-169 | 6, 6 and 4 corners, and the same Rsplit as the upright layers |
| Pores.UprightLayersShape | nanopores/geometries/allpores.py:141-161 | the layers have 6, 6 and 4 vertices. au starts with sam[5], sam[4], sam[3] and sin with au[5], au[4], au[3]. The first edge runs from r0 = dp/2 − 3 to r1 = r0 + 93·tan over l0 = 93, and Rsplit lies between r1 and R |
| Pores.FlippedIsMirrored | nanopores/geometries/allpores.py:162-169 | each reversed layer is the upright one mirrored in z with its vertex order reversed, and Rsplit is the same |
| Pores.FlippedLayersShare | nanopores/geometries/allpores.py:162-169 | the flipped layers share their vertices with sam and au as the index expressions say |
| Pores.Synonyms | nanopores/geometries/allpores.py:185-188 | each of sam, au, sin maps to its {charged, uncharged} pair |
| Pores.FlagParam | nanopores/geometries/allpores.py:155 | a flag parameter is read by its truth value |
| Pores.WeiPoreReceptor | nanopores/geometries/allpores.py:173-193 | a receptor ball (the receptor's centre and radius, lc = 0.1) is added iff receptor is not None; the synonyms and the polygons are those above |
| Pores.WeiPore | nanopores/geometries/allpores.py:173-193 | AttributeError without angle; on success the pore keeps the params and the synonyms, and has a receptor iff receptor is not None |
| Pores.Build | nanopores/geometries/allpores.py:62-198 | `build` dispatches by class: PughPore.build; AlphaHem's pore built with h, subs and reconstruct; WeiPore's pore built with h, subs and reconstruct, Ok iff the pore sets up and subs is set, the pore's error passing through |
| Pores.PoreOf | nanopores/geometries/allpores.py:44-49 | `pore()` by class: AttributeError for PughPore, which has none; the AlphaHem and WeiPore pore setups |
| Pores.BasePore.GetGeo | nanopores/geometries/allpores.py:38-42 | sets h and reconstruct to the keywords or their defaults and builds on the merged defaults. The stored params are the merged ones, except that a PughPore keeps the derived l0..l4 once they are computed, since `PughPore.build` updates `self.params` through an alias |
| Pores.BasePore.GetPore | nanopores/geometries/allpores.py:44-49 | sets params to the merged defaults, leaves h and reconstruct, and returns the pore |
| Pores.WithName | nanopores/geometries/allpores.py:27 | `params["geoname"] = geoname` adds exactly that entry |
| Pores.GetGeoByName | nanopores/geometries/allpores.py:24-28 | lookup error for an unknown name; otherwise the class's `get_geo` on the params with geoname recorded |
| Pores.GetPoreByName | nanopores/geometries/allpores.py:30-34 | lookup error for an unknown name; otherwise the class's `get_pore` on the params with geoname recorded |
| Pores.GeoNameRecorded | nanopores/geometries/allpores.py:24-28 | the pore object's params record the geometry name and every caller parameter other than h and reconstruct |
| SurfaceDistance.AHemOutlineProper | np-scripts/random_walk/plot2.py:12-107 | the outline has 96 corners and no segment joins a corner to itself |
| SurfaceDistance.CornersDiffer | np-scripts/random_walk/plot2.py:12-107 | consecutive corners, including the wrap from the last to the first, differ |
| SurfaceDistance.CountBelowMonotone | np-scripts/random_walk/plot2.py:113 | counting exits before a later time never counts fewer |
| SurfaceDistance.CountBelow | np-scripts/random_walk/plot2.py:113 | the number of exit times below t, at most the number of times |
| SurfaceDistance.ExitCountsMonotone | np-scripts/random_walk/plot2.py:112-113 | the raw count of bin i is non-decreasing in i and at most the number of exits |
| SurfaceDistance.ExitCounts | np-scripts/random_walk/plot2.py:111-113 | a fresh array of 100 entries; entry i is `ExitCount`, the number of exit times below timestep·(i+1) |
| SurfaceDistance.ScaleInPlace | np-scripts/random_walk/plot2.py:114 | every entry is multiplied by the factor in place |
| SurfaceDistance.ExitProportions | np-scripts/random_walk/plot2.py:109-114 | no proportions iff `Sum` (`np.sum(counter)`) is 0; otherwise entry i is the raw count `ExitCount` times 1/sum(counter) |
| SurfaceDistance.RadiusSq | np-scripts/random_walk/plot2.py:117-118 | the squared radius is not negative, and 0 exactly at the origin |
| SurfaceDistance.LineDistanceSq | np-scripts/random_walk/plot2.py:119-120 | the squared distance to a line (`Det`² / \|AB\|², with `Det` the 2x2 determinant `det`) is not negative, and 0 iff det is 0 |
| SurfaceDistance.NormalSq | np-scripts/random_walk/plot2.py:122-134 | the squared value is never negative, and equal end points give the sentinel |
| SurfaceDistance.NormalFromSquares | np-scripts/random_walk/plot2.py:123-134 | from the three squared side lengths, the 0 branch and the AP² − c² branch both give a value that is not negative |
| SurfaceDistance.NormalSqIsPerpendicular | np-scripts/random_walk/plot2.py:122-134 | for A ≠ B: when the projection of P onto AB lies strictly inside the segment, `normal`² is the squared perpendicular distance from P to line AB; otherwise it is the sentinel |
| SurfaceDistance.ArrayMin | np-scripts/random_walk/plot2.py:149 | `min` of a non-empty array is at most every entry and is one of them |
| SurfaceDistance.DistanceToSurfaceSq | np-scripts/random_walk/plot2.py:137-149 | the sentinel when z > 3 or rad > 8; otherwise ValueError iff there are no corners, and else the least of all corner distances and segment values. Segment i joins corner i−1 to corner i, and segment 0 wraps to the last corner |
| SurfaceDistance.SegmentSq | np-scripts/random_walk/plot2.py:145-148 | `normal` of segment i, from corner i−1 to corner i, with index −1 the last corner |
| SurfaceDistance.LeastOfBoth | np-scripts/random_walk/plot2.py:149 | the smaller of the two array minima is at most every corner and segment value and is one of them |
| SurfaceDistance.ClosedOutline | np-scripts/random_walk/plot2.py:162-169 | size+1 entries holding the corners' r and z, with the last equal to the first |
| Howorka.GeoParams | nanopores/models/Howorka.py:37-46 | exactly the six keys. x0 is None iff z0 is None, and otherwise [0, 0, z0]. rMolecule is scaled by nm, both blayer flags are False, and Rx and Ry are passed through |
| Howorka.EveryOther | nanopores/models/Howorka.py:102 | `[::2]` keeps the entries at even positions |
| Howorka.MoleculeCenter | nanopores/models/Howorka.py:101-103 | the molecule circle's centre is (0, z0) |
| Howorka.GeoParams3D | nanopores/models/Howorka.py:48-58 | exactly the eight keys; R = Rx, Rz = Ry, lcCenter = lcMolecule = lcpore, rMolecule scaled by nm3D, and x0 passed through |
| Howorka.GeoParamsAgree | nanopores/models/Howorka.py:37-58 | the 2-D and 3-D records agree on every shared key except rMolecule, and on that too when nm = nm3D |
| Howorka.PhysParams | nanopores/models/Howorka.py:60-68 | exactly the seven keys; Qmol = qTarget = Qmol·qq, rTarget = rMolecule·1e-9, and membrane charge 0 |
| Howorka.TargetRadiusMatchesGeometry | nanopores/models/Howorka.py:37-68 | the geometry's molecule radius equals the physics target radius iff rMolecule is 0 or nm = 1e-9 |
| Howorka.Polygon | nanopores/models/Howorka.py:71-78 | eight vertices |
| Howorka.PolygonSymmetric | nanopores/models/Howorka.py:77-78 | vertex k and vertex 7−k share r and have opposite z, so the polygon is its own mirror image with reversed order |
| Howorka.PolygonCoordinates | nanopores/models/Howorka.py:71-78 | the r coordinates are exactly {r0, r1, rMem} and the z coordinates exactly {±l0/2, ±l1/2} |
| Howorka.MinLen | nanopores/models/Howorka.py:123 | the shortest row length is at most every row length and is one of them |
| Howorka.ZipStar | nanopores/models/Howorka.py:123 | `zip(*rows)` is empty for no rows, and otherwise has as many columns as the shortest row |
| Howorka.ZipStarEntries | nanopores/models/Howorka.py:123 | column j holds entry j of every row, in row order |
| Howorka.ZipStarTwice | nanopores/models/Howorka.py:123 | transposing a non-empty rectangular table twice gives it back |
| Howorka.Unpack3 | nanopores/models/Howorka.py:123 | unpacking into F, Fel, Fdrag succeeds iff there are exactly three columns, and is ValueError otherwise |
| Howorka.Evaluations | nanopores/models/Howorka.py:130 | one force evaluation per queried position, in query order |
| Howorka.FImplicitInQueryOrder | nanopores/models/Howorka.py:127-132 | for triple-valued evaluations, F, Fel and Fdrag each have one entry per queried z in query order; an empty z is ValueError |
| Howorka.FImplicit | nanopores/models/Howorka.py:127-132 | the comprehension over z, then `zip(*values)` unpacked into F, Fel and Fdrag; FImplicitInQueryOrder states its result |
| Howorka.FExplicit | nanopores/models/Howorka.py:114-124 | the loop that appends one evaluation per z gives the same tables as the comprehension |

## Left out

- Random-walk engine: the engine, the stepper, reflection and binding trials are not
  part of this model. `in_channel`, `radius_at`, zbot/ztop, the alive mask and the
  walks a run returns are inputs, and so is the store's content.
- Randomness: the draws in `draw_empirically` and `tauoff_wei` are not modelled.
  `tauoff_wei` is modelled as the batches it samples: interval and sample count.
  The Poisson draws are an input list.
- Result store: `fields.exists`/`load_results` are not part of this model. The store
  is a map from (name, parameters other than N) to the saved walks; that keying is an
  assumption.
- ExitTime.ResultStore.GetResults: takes N as a Python int. A float N would make
  `Params(params, N=...)` and the comparison work on floats.
- Floating point: reals are exact. Share in `tauoff_wei` is an exact truncated
  division by a power of two, which is what halving a float does while it stays
  normal. `distrec`, `Rsplit`, the polygon coordinates and the curve fractions are
  exact, and so is the −0.0 of `Membraneqs`, which becomes 0.
- numpy NaN and infinity: `1./np.sum(counter)` with a zero sum would scale by
  infinity; the model gives no proportions. An empty `success.mean()` would be NaN;
  the model gives no value.
- SurfaceDistance.NormalSq: the NaN of `normal` for A = B is modelled by its outcome,
  the sentinel, and not as a float value.
- sqrt, tan, cos and the degree conversion: these are not computed. Distances in
  plot2.py are squared, and `tan`/`cos` of the half angle are functions passed to the
  WeiPore operations.
- Plotting: the `x_mem` membrane line, the radii `radius(x, y)` of the exit points
  and the `leftend` bound only feed plots, so they are left out. So are all other
  plotting, printing, `np.load`/`genfromtxt`, data files and `save_dict`.
- Pools: the multiprocessing and MPI pools are modelled as a sequential map.
  `MPI.COMM_WORLD.Get_rank()` is taken as rank 0.
- `post_iteration` beyond its tables: the unique id, `save_dict`, the `Data` file and
  the plot loop are left out. ParamSweep.PostIteration stops once the chunk parameter
  sets are built, and the ParamSweep.PostIterationChunk lemma states the chunk
  layout the plot loop slices.
- Pores.WeiPolygons: the model takes the cosine of half the aperture angle to be
  non-zero. `np.cos` of a double angle is never exactly 0; if it were, numpy would
  give `inf` with a warning instead of raising, and the model has no `inf`.
- WeiReceptor.SetupReceptor: `params.rMolecule` is the default that `user_params`
  sets (scripts/wei/run_wei.py:12-16), 1.25. A value given on the command line is
  not modelled.
- ParamSweep.Simulation2D: without `plot`, an `iterkeys` keyword whose value is a
  string, or a list holding something other than names, is not modelled. The source
  would iterate the string by character and use the list items as keys; the model
  requires None, a number, a flag or a list of names there.
- `post_iteration_ONE` only writes files and plots, so it is not modelled.
- Exceptions: `raise Exception(msg)` is Raised(msg). A failed `list.remove` is
  ValueError.
- Parameter values: numpy arrays as parameter values are not modelled. Python strings iterate by character in `combinations` but have no `__iter__` in
  the Python 2 the script runs on. `HasIter` and `ForItems` keep that difference.
- `PughPore.default`: the property is declared without `self`, so in the code the
  default is not reachable. The model uses the dict it spells out, with the
  `pughpore` module's parameters as an input.
- `pughpore.get_geo`, `get_geo_cyl`, `get_geo1D`, `MultiPore`, `Pore`, `curved`,
  `Polygon.split` and `add_polygons` are not part of this model. The model records
  what is handed to them: builder, h, params, snap, layers, receptor and synonyms.
- Pores.Build: `geo.params` of the built Pugh geometry is taken to be the params
  handed to the builder, so the molecule snap reads the merged params.
- Howorka setup and solving: `setup2D`, `solve2D`, `setup3D`, `solve3D`, `pbpnps`,
  dolfin and the finite-element force evaluations are not part of this model. The
  force evaluations are functions from a position to a force tuple. `round(z0, 4)` in
  `setup2D` is left to those functions.
- `F_explicit3D`, `F_implicit3D` and `F_field_implicit` are not modelled: they solve
  fields rather than build tables.
- Constants from other modules: `nm`, `nm3D`, `qq` and `params_geo.r0/r1/l0/l1` live
  in modules that are not part of this model, so they are parameters.
- Other scripts: scripts/numerics/Howorka.py and scripts/howorka/selectivity.py are
  finite-element setup, so they are not part of this model.

## Findings

| source | as written | input that shows it | evidently intended | confidence | as-written member | corrected member |
|---|---|---|---|---|---|---|
| scripts/wei/run_wei.py:128-144 | `bindings = np.zeros(N, dtype=bool)` stores each Poisson draw as a bool. `np.random.gamma(bindings[ibind], ...)` then gets shape True = 1 for every kept event | one walk with mean attempts > 0 whose Poisson draw is 2 | the gamma shape of an event is its number of bindings, so that its total bound time is a sum of that many exponential dwell times | medium, not executed | WeiReceptor.GammaShapesAsWrittenAreOne, WeiReceptor.GammaShapeCounterexample | WeiReceptor.GammaShapesAreCounts |
