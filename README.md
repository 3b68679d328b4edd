# RoadGeneration core in Dafny

This project models the deterministic core of RoadGeneration, a generator that
turns a compact XML description of a road network (segments, T-junctions,
connecting roads, elevation key points) into an OpenDRIVE network. It also models
the variation front end, which writes numbered revisions of a template network.
The model covers six parts of the repository:

- `interface.dfy` (module `Interface`) holds the records of `src/interface.h` as
  datatypes. Each default member initialiser becomes a `Default...` function. The road
  network that generation appends to is the class `RoadNetwork`. Fields the
  generation code uses but this version of the header lacks are added, with the
  defaults documented there. These are the elevation key points, `isConnectingRoad`,
  `inputSegmentId`, `inputId`, `elevationOffset`, `isLinkedToNetwork` and
  `successor.id`.
- `collaborators.dfy` (module `Collaborators`) describes the helpers that the core
  calls but that are not part of this model: `generateRoad`/`buildRoad`,
  `addObjects`, `addSignal`, `fixAngle`, `sortRoads`, `findTOffset`, the lane
  finders and `createRoadConnection`. Each is a function-valued field of `Env`,
  which callers pass in. Where a contract needs a helper to leave alone a field the
  caller stamped, it says so as a predicate on `Env`.
- `tjunction.dfy` (module `TJunction`) models `tjunction`. It covers:
  - the mode check and leg lookup;
  - the coupler offsets and their safety floor;
  - the three approach roads;
  - the user-defined lane links;
  - the six-road right-of-way table;
  - what is appended to the network and in what order.
- `elevation.dfy` (module `Elevation`) models the closed-form blend between
  elevation key points and `generateElevationProfile`, which fills an array in
  place. It also models the sanity checks of `generateElevationProfiles`.
  Arithmetic is over `real`. The square root is a parameter, and properties that
  need it assume only that it is a square root where it is used.
- `connecting_road.dfy` (module `ConnectingRoad`) models `connectingRoad`. It covers:
  - the segment counter;
  - the id, junction and segment stamps;
  - the key-point list: a start point, the declared points, an end point;
  - its in-place sort by offset;
  - the append to the network.
- `runner.dfy` (module `Variation`) models the template substitution of
  `variation/variation/runner.py`. It covers:
  - `is_var` against the regular expression it uses;
  - `get_var_val`, including its `IndexError` path;
  - `find_var`, as a function on element values;
  - the `lindep` and error paths of `generateVar`;
  - the variable table, revision file names and output names;
  - the revision loop of `executePipeline` and `run`.
- `export.dfy` (module `Export`) models the library entry points of
  `src/libfiles/export.cpp`. The globals are the fields of the class `Library`,
  which has setters and `executePipeline`. That method derives the output-file stem
  and runs seven stages, stopping at the first error.

`wrappers.dfy` holds the `Option` and `Result` types.

The model follows the code, including these behaviours:
- The elevation sanity check tests only the first and last offsets against the road. It does not check that offsets increase, and it compares only the pairs `i < size - 2` for duplicates, so the last pair is never compared (see Findings).
- A user lane link's `right` attribute is written into the left road mark, and the right mark passed on is always "none" (see Findings).
- A user-defined lane link is validated only by its road ids, not its lane ids.
- A failed road link leaves the roads appended before it in the network.
- `connectingRoad` always adds its start and end key points, whether or not the declared points already cover 0 and the road length.
- Degenerate blends (equal curvatures, zero radius) are not rejected by the code. The model requires them away (see Left out).

## Model

| member | source | states |
|---|---|---|
| Interface.DefaultConnection | src/interface.h:9-17 | a connection's contact point defaults to "start"; the ids the header leaves unset are the arguments |
| Interface.NewJunction | src/interface.h:19-23 | a junction starts with the given id and no connections |
| Interface.DefaultRoadMark | src/interface.h:25-32 | a road mark defaults to s 0, "solid", "standard", "white", width 0.15 |
| Interface.DefaultWidth | src/interface.h:34-41 | a lane width defaults to s 0, a 3.5, b = c = d = 0 |
| Interface.DefaultOffset | src/interface.h:43-49 | an offset record is all zero |
| Interface.DefaultMaterial | src/interface.h:51-57 | a material defaults to s 0, "asphalt", friction 0.8, roughness 0.015 |
| Interface.DefaultLane | src/interface.h:59-71 | a lane defaults to "driving", turn = level = 0, speed 0, default width, mark and material, preId = sucId = 0 |
| Interface.DefaultLaneSection | src/interface.h:73-80 | a lane section starts at s 0 with no lanes and an all-zero offset |
| Interface.DefaultLink | src/interface.h:95-100 | a link defaults to element type "road", element id -1, contact point "start" (its id, absent from this header, is -1) |
| Interface.DefaultObject | src/interface.h:102-118 | an object defaults to id -1, an empty type, orientation "none", every length zero, not repeated |
| Interface.DefaultSignal | src/interface.h:120-136 | a signal defaults to id and rule -1, an empty type, subtype "-1", value -1, orientation "none", country "OpenDRIVE"; the uninitialised `dynamic` flag is the argument |
| Interface.DefaultControl | src/interface.h:138-142 | a controller starts with id -1 and no signals |
| Interface.DefaultRoad | src/interface.h:144-158 | a default road has length 0, id -1, junction -1, type "town", default links and empty lists; the added fields default to not connecting, ids -1, offset 0, not linked |
| Interface.RoadNetwork.constructor | src/interface.h:160-170 | a fresh network has no roads, junctions or controllers, both counters 0, and version 1.5 |
| Interface.NewKeyPoint | src/generation/connectingRoad.h:79-82 | a key point made by the generation code carries its offset, height and radius, no polynomials and input id -1 |
| Interface.LastWithIdFound | src/tjunction.h:237-243 | the last-match lookup gives id -1 exactly when no road has the id asked for, and otherwise the last road that has it |
| Elevation.Poly3 | src/generation/elevation.h:65-68 | the cubic a + b x + c x^2 + d x^3, whose value at x = 0 is a |
| Elevation.Poly3Derivation | src/generation/elevation.h:71-74 | the derivative of that cubic, whose value at x = 0 is b |
| Elevation.Poly3DerivationIsSlope | src/generation/elevation.h:64-74 | `poly_3_derivation` is the derivative of `poly_3`: the change over a step h is h times it plus terms of order h^2 and h^3 |
| Elevation.GetCFromRadius | src/generation/elevation.h:45-48 | c = 1/(2 r), and c has the sign of r |
| Elevation.GetX1CutOff | src/generation/elevation.h:33-38 | with an exact square root, x1 is a root of c1(c1-c2)x^2 + 2c1c2(o2-o1)x + c2(y1-y2) = 0 |
| Elevation.CutOffIsRoot | src/generation/elevation.h:33-38 | the closed-form x1 solves that quadratic whenever its root term squares to the discriminant |
| Elevation.GetX2CutOffFromX1 | src/generation/elevation.h:40-43 | c2 x2 = c1 x1, so the end clamp starts with the connector's slope |
| Elevation.ShiftedIdentity | src/generation/elevation.h:57-62 | sa + sb x + sc x^2 = a + c (x + o)^2 for every x |
| Elevation.ShiftPolynom | src/generation/elevation.h:57-62 | the out-parameters are the shifted parabola's coefficients, equal to a + c (x + o)^2 for every x |
| Elevation.Curvatures | src/generation/elevation.h:91-97 | the clamp curvatures keep the magnitudes 1/(2 r) of the two radii, and exactly one of them is negated, so their product is the negated product of the unsigned ones |
| Elevation.ClampsOpenTowardEachOther | src/generation/elevation.h:91-97 | with positive radii the clamp at the higher point bends down and the other bends up (on equal heights the end clamp bends down), so the stretch can be blended |
| Elevation.StartClampToConnector | src/generation/elevation.h:102-116 | the start clamp leaves p1 level at y1, and the connector starts at o1 + x1 with the clamp's value and slope |
| Elevation.ConnectorLine | src/generation/elevation.h:112-116 | the connector is the line of value y1 + c1 x1^2 and slope 2 c1 x1 at o1 + x1 |
| Elevation.EndClampShape | src/generation/elevation.h:118-125 | the end clamp arrives level at (o2, y2) and starts at o2 + x2 with value y2 + c2 x2^2 and slope 2 c2 x2 |
| Elevation.BlendPair | src/generation/elevation.h:82-129 | a stretch gives three polynomials, the first starting at p1, none with a cubic term, the middle one a straight line |
| Elevation.BlendPairIsSmooth | src/generation/elevation.h:82-129 | the three pieces start at o1, o1 + x1 and o2 + x2; value and slope are continuous start clamp to connector, slope is continuous connector to end clamp, and both ends are level at their key points |
| Elevation.BlendPairMeetsEndClamp | src/generation/elevation.h:99-125 | with an exact square root the connector also reaches the end clamp's value where the end clamp starts |
| Elevation.CutOffsSolve | src/generation/elevation.h:99-100 | with an exact square root the two hand-over offsets solve the cut-off equations |
| Elevation.PiecesMeet | src/generation/elevation.h:112-125 | offsets that solve the cut-off equations make the connector end on the end clamp |
| Elevation.ConnectorMeetsEndClamp | src/generation/elevation.h:99-125 | a root of the cut-off equation with c2 x2 = c1 x1 gives equal values at o2 + x2 |
| Elevation.BlendStretch | src/generation/elevation.h:82-129 | one loop iteration's three polynomials are the closed-form blend of the stretch |
| Elevation.GenerateElevationProfile | src/generation/elevation.h:76-132 | every key point but the last gets its stretch's three polynomials appended in order, the last is untouched, and the result is 0 |
| Elevation.DuplicateWarnings | src/generation/elevation.h:146-152 | corrected scan: one warning per consecutive pair at the same offset, the last pair included, each naming the road's segment and input id |
| Elevation.DuplicateCountZero | src/generation/elevation.h:146-152 | no warning is counted exactly when no compared pair shares an offset |
| Elevation.FirstOutOfBounds | src/generation/elevation.h:138-144 | the roads before the index pass the bounds check, and the road at it, if any, fails |
| Elevation.FirstOutOfBoundsAt | src/generation/elevation.h:138-144 | the scan stops at the first failing road, and stops early exactly when some road fails |
| Elevation.ScanDuplicates | src/generation/elevation.h:146-152 | the duplicate loop over one road, run while `i < size() - 2`, reports exactly the as-written warnings |
| Elevation.CheckElevationProfiles | src/generation/elevation.h:137-153 | status 1 exactly when some road's first key point is before 0 or its last is past its length; the as-written duplicate warnings of the roads scanned before that road, in order |
| Elevation.GenerateElevationProfiles | src/generation/elevation.h:134-173 | invalid bounds fail first; otherwise a missing `links` element returns 0 before any polynomial is made |
| Elevation.DuplicateWarningsAsWritten | src/generation/elevation.h:146-152 | as written: one warning per consecutive pair at the same offset among the pairs below `size() - 2`, each naming the road |
| Elevation.DuplicateScanMissesLastPair | src/generation/elevation.h:146 | the scan as written misses a duplicate in the last pair, and its bound wraps to 2^64 - 1 for a single key point |
| Elevation.AsWrittenSkipsOnlyLastPair | src/generation/elevation.h:146-152 | the as-written warnings are the corrected ones less exactly one, when the last two key points share an offset |
| ConnectingRoad.StampedRoad | src/generation/connectingRoad.h:47-54 | the road gets id 100 * segment + road id, junction = input segment = segment id, and is marked connecting |
| ConnectingRoad.BuiltRoad | src/generation/connectingRoad.h:59-68 | the road is produced exactly when buildRoad and then addObjects return 0, and keeps its stamp when they do not touch it |
| ConnectingRoad.DeclaredPoints | src/generation/connectingRoad.h:85-95 | only `elevationPoint` children give key points, each from its own s, height and r |
| ConnectingRoad.DeclaredPointsSingle | src/generation/connectingRoad.h:85-95 | one child gives its key point exactly when it is an `elevationPoint`, and nothing otherwise |
| ConnectingRoad.DeclaredPointsAppend | src/generation/connectingRoad.h:85-95 | the children are read in document order: the points of a concatenation are the concatenated points |
| ConnectingRoad.DeclaredPointsOfPointsOnly | src/generation/connectingRoad.h:85-95 | when every child is an `elevationPoint`, child k gives key point k |
| ConnectingRoad.AssembledPoints | src/generation/connectingRoad.h:79-101 | the list before sorting is what buildRoad left, then (0, 0, startR), the declared points, then (length, endElevation, endR) |
| ConnectingRoad.AssemblePoints | src/generation/connectingRoad.h:79-101 | the push-back sequence yields exactly that list |
| ConnectingRoad.SortKeyPoints | src/generation/connectingRoad.h:103-104 | after the sort the key points are in offset order and a permutation of what was there |
| ConnectingRoad.SortedPointsWithinRoad | src/generation/connectingRoad.h:79-104 | the sorted list passes the elevation bounds check exactly when the length is not negative and every built and declared point lies in [0, length] |
| ConnectingRoad.MakeRoad | src/generation/connectingRoad.h:47-106 | no road when buildRoad or addObjects fails; otherwise the built road, with its key points replaced by the sorted assembled list only when a profile is declared |
| ConnectingRoad.Generate | src/generation/connectingRoad.h:29-111 | the segment counter rises by one on every call; a missing road or a helper failure gives 1 with the roads unchanged; otherwise exactly the finished road is appended and 0 returned; nothing else changes |
| TJunction.ParseMode | src/tjunction.h:13-20 | "MA" gives mode 1, "3A" mode 2, anything else an error |
| TJunction.LastMatch | src/tjunction.h:43-53 | the leg found is the last road child with the id, and there is one exactly when some child has it |
| TJunction.LocateLegs | src/tjunction.h:41-53 | the loop finds the main leg by `refId` and the access legs by the first and second `adRoad` ids, the second only in mode "3A" |
| TJunction.DeclaredOffset | src/tjunction.h:64-76 | a leg's declared offset: 0 without a coupler area, else the area's offset unless an entry for the leg overrides it (stated by TJunction.EntryOffset) |
| TJunction.EntryOffset | src/tjunction.h:69-76 | a leg's offset is that of the last coupler entry for it, or the default when there is none |
| TJunction.DeclaredOffsets | src/tjunction.h:63-76 | each leg's offset starts at the coupler area's offset (0 without one) and is overridden by its own entry |
| TJunction.SectionWidth | src/tjunction.h:89-96 | a leg's width is not negative |
| TJunction.LegWidth | src/tjunction.h:78-96 | the width of a whole leg is not negative |
| TJunction.SafetyFloor | src/tjunction.h:99-101 | the floor is 4 * max of the other two half-widths, that is twice the larger other width |
| TJunction.RaiseOffsets | src/tjunction.h:103-111 | each offset ends at max(declared, floor), and the warning is set exactly when at least one was raised |
| TJunction.SetupOf | src/tjunction.h:22-24 | the setup carries the junction's own id |
| TJunction.SetupFailsExactly | src/tjunction.h:12-137 | the generator fails before appending anything exactly when the type is unknown, the intersection point is missing, a needed leg is not found, or a needed `adRoad` is missing |
| TJunction.SetupLegs | src/tjunction.h:43-59 | the legs found are roads of the node carrying the ids the intersection point asks for |
| TJunction.SetupOffsets | src/tjunction.h:61-111 | every final offset is at least its declared value and its floor and equals one of them; the warning holds exactly when some declared offset was below its floor |
| TJunction.Prepare | src/tjunction.h:12-144 | the checks and computations before the first append give exactly the setup, or the failure |
| TJunction.ApproachStamp | src/tjunction.h:157-161 | approach road k gets id 100 * j + k, junction j and predecessor junction j |
| TJunction.Approaches | src/tjunction.h:157-224 | in "3A" road k is leg k from its offset on; in "MA" roads 1 and 2 are the main road before and after the intersection, generated only at a non-zero normalised angle with trims 50/-1 swapped by its sign, and road 3 is the access road turned by phi1 |
| TJunction.ApproachRoad | src/tjunction.h:157-180 | an approach road keeps its stamp when the helpers keep it |
| TJunction.ApproachRoads | src/tjunction.h:157-224 | three roads, road k with id 100 * j + k, junction j and predecessor junction j when the helpers keep the stamp |
| TJunction.BuildApproachRoads | src/tjunction.h:157-224 | the three branch-by-branch roads are exactly those approach roads |
| TJunction.UserMarks | src/tjunction.h:255-266 | corrected marks: each road mark of a lane link is its attribute when present and "none" otherwise |
| TJunction.UserMarksAsWritten | src/tjunction.h:255-266 | as written, the right mark passed is always "none"; the left mark is the `right` attribute when present, else the `left` attribute, else "none"; the middle mark is its attribute or "none" |
| TJunction.MarksAsWrittenVsIntended | src/tjunction.h:255-266 | the marks as written equal the intended ones without a `right` attribute; with one, the intended right mark takes the left place and the right mark is "none" |
| TJunction.RightMarkOverwritesLeft | src/tjunction.h:262-263 | a link with left "broken" and right "solid" is passed as ("solid", "none", "none") instead of ("broken", "solid", "none") |
| TJunction.LaneLinkRoads | src/tjunction.h:250-272 | each lane link appends exactly one road, and the earlier roads are kept |
| TJunction.LaneLinkRoadIds | src/tjunction.h:268-271 | when createRoadConnection keeps ids, the road at index k appended by the lane links has id 100 * j + k + 1 |
| TJunction.LaneLinkRoadMarks | src/tjunction.h:250-271 | the road appended for lane link i is createRoadConnection's road for that link's lane ids, id 100 * j + index + 1 and the as-written marks (right attribute in the left mark, right mark "none") |
| TJunction.UserLinkRoads | src/tjunction.h:230-274 | the user branch only appends, and on success it appends exactly one road per lane link, each made with the as-written marks |
| TJunction.UserLinkRoadIds | src/tjunction.h:268-271 | every road the user branch appends has id 100 * j + its index + 1, however the branch ends |
| TJunction.UserLinksSucceed | src/tjunction.h:237-248 | when every road link names roads that exist, the user branch succeeds |
| TJunction.UserLinksStopAtUnknown | src/tjunction.h:243-248 | a road link naming a missing road fails at once and appends nothing more |
| TJunction.FindLinkRoads | src/tjunction.h:237-242 | the lookup loop finds the last road with each id, or a default road |
| TJunction.AppendLaneLinks | src/tjunction.h:250-272 | the lane-link loop, which assigns the `right` attribute to the left mark, appends exactly those lane-link roads in place and changes nothing else |
| TJunction.UserConnections | src/tjunction.h:230-274 | the user branch, run in place, gives the outcome the road-link list determines (lane-link roads with the as-written marks) and changes nothing else |
| TJunction.AutoPlan | src/tjunction.h:296-386 | the right-of-way table has one row per connecting road, six in all |
| TJunction.AutoPlanTable | src/tjunction.h:296-386 | the right-of-way table, row by row, keyed on the mode and the sign of the raw phi1 (see the source lines) |
| TJunction.TableRoad | src/tjunction.h:296-306 | a table row with no branch firing leaves a default road with the row's id |
| TJunction.TableRoads | src/tjunction.h:296-386 | one road per table row |
| TJunction.TableRoadIds | src/tjunction.h:296-386 | the table roads carry ids counting up from 100 * j + 51, for empty rows always and for all rows when createRoadConnection keeps ids |
| TJunction.TableEmptyRows | src/tjunction.h:296-386 | an empty row still appends a default road with its id |
| TJunction.Connect12 | src/tjunction.h:296-306 | the 1 -> 2 block makes the table's first road |
| TJunction.Connect21 | src/tjunction.h:308-328 | the 2 -> 1 block makes the table's second road |
| TJunction.Connect23 | src/tjunction.h:330-335 | the 2 -> 3 block makes the table's third road |
| TJunction.Connect32 | src/tjunction.h:337-342 | the 3 -> 2 block makes the table's fourth road |
| TJunction.Connect31 | src/tjunction.h:344-364 | the 3 -> 1 block makes the table's fifth road |
| TJunction.Connect13 | src/tjunction.h:366-386 | the 1 -> 3 block makes the table's sixth road |
| TJunction.FirstConnections | src/tjunction.h:296-335 | the first three blocks make the table's first three roads |
| TJunction.LastConnections | src/tjunction.h:337-386 | the last three blocks complete the six table roads |
| TJunction.AutoOutcome | src/tjunction.h:276-387 | a sort failure appends nothing; otherwise six roads are appended, ids 100 * j + 51 to 56 in order (for empty rows even when createRoadConnection changes ids) |
| TJunction.AutoConnections | src/tjunction.h:276-387 | the automatic branch, run in place, gives that outcome and changes nothing else |
| TJunction.JunctionOutcome | src/tjunction.h:157-387 | the approach roads come first; user-defined roads get ids 100 * j + index + 1 and the as-written marks; the automatic branch succeeds exactly when the sort does and then appends nine roads in all |
| TJunction.AppendRoads | src/tjunction.h:157-387 | everything appended after the checks is that outcome, and nothing else of the network changes |
| TJunction.Generate | src/tjunction.h:10-392 | a failed check gives 1 with the network untouched; otherwise the roads are appended, and the junction is appended last, with 0, exactly when the connecting roads succeeded |
| Variation.IsVar | variation/variation/runner.py:14-19 | `is_var` as a left-to-right scan; its meaning is stated by Variation.IsVarMatchesPattern |
| Variation.IsVarMatchesPattern | variation/variation/runner.py:14-19 | `is_var` holds exactly when the regular expression finds "${" followed later on the same line by "}" |
| Variation.ScanVarSpec | variation/variation/runner.py:14-19 | the left-to-right scan finds a match, or, with a "${" open, a "}" on the first line |
| Variation.VarName | variation/variation/runner.py:39 | `key[2:-1]` drops the first two and the last character, and is empty for keys shorter than 3 |
| Variation.VarNameOfReference | variation/variation/runner.py:39 | the name in "${name}" is recovered exactly |
| Variation.GetVarVal | variation/variation/runner.py:21-40 | a declared name gives its value for revision ii while there is one; an unknown name gives "0" for revision 0; everything else is IndexError |
| Variation.GetVarValOfReference | variation/variation/runner.py:39-40 | a reference to a declared variable yields revision ii's value |
| Variation.RewriteAttrs | variation/variation/runner.py:57-59 | an element's attributes rewrite exactly when each variable resolves, keys kept, variables replaced, other values kept |
| Variation.FindVar | variation/variation/runner.py:42-59 | `find_var` on element values; what it substitutes is stated by Variation.FindVarSubstitutes |
| Variation.FindVarSubstitutes | variation/variation/runner.py:42-59 | `find_var` succeeds exactly when every variable below the root resolves, and then substitutes exactly those: the root's attributes, tags, keys and shape are unchanged |
| Variation.FindVarChildrenSubstitute | variation/variation/runner.py:55-59 | the children loop succeeds exactly when every child resolves, each rewritten below and in its own attributes |
| Variation.GenerateVar | variation/variation/runner.py:64-91 | "lindep" gives n copies of the `dp` text, and raises numpy's ValueError for a negative n; a type other than normal, uniform or lindep raises ValueError |
| Variation.LindepCopies | variation/variation/runner.py:86-87 | a "lindep" variable generates exactly when n is not negative, and then has exactly n values, each its `dp` text |
| Variation.NegativeCountTable | variation/variation/runner.py:159-183 | with a negative `-n`, a table is built only when every variable is a numpy draw ("normal" or "uniform") |
| Variation.VarTable | variation/variation/runner.py:180-183 | the variable table built in document order; its properties are stated by the three lemmas below |
| Variation.VarTableSucceeds | variation/variation/runner.py:180-183 | the table is built exactly when every variable generates |
| Variation.VarTableKeys | variation/variation/runner.py:180-183 | the built table's keys are exactly the variables' ids |
| Variation.VarTableLast | variation/variation/runner.py:180-183 | each id holds the values of the last variable carrying it |
| Variation.CollectVars | variation/variation/runner.py:180-183 | the loop builds exactly that table, or stops at the first failure |
| Variation.NatToString | variation/variation/runner.py:118 | `str(i)` is a non-empty string of digits with no leading zero |
| Variation.ParseNatToString | variation/variation/runner.py:118 | reading the digits back gives i |
| Variation.NatToStringInjective | variation/variation/runner.py:118 | different revision numbers have different texts |
| Variation.RevisionFileName | variation/variation/runner.py:118 | revision i's file lies in the input directory, starts with the network name and ends in ".xml" |
| Variation.RevisionOutputName | variation/variation/runner.py:130-131 | an output name is passed exactly when `-o` was given non-empty, and then it is that name followed by "_rev" and the number |
| Variation.RevisionNamesDistinct | variation/variation/runner.py:118-131 | two revisions never share an input file name, nor an output name |
| Variation.AfterLast | variation/variation/runner.py:167 | `split(c)[-1]` is the suffix after the last c |
| Variation.BeforeFirst | variation/variation/runner.py:167 | `split(c)[0]` is the prefix before the first c |
| Variation.BaseName | variation/variation/runner.py:167 | `nwName` contains neither '/' nor '.' |
| Variation.BaseNameOf | variation/variation/runner.py:167 | the template "dir/name.ext" gives "name" |
| Variation.StripSlashes | variation/variation/runner.py:171 | trailing slashes are removed and nothing else |
| Variation.Head | variation/variation/runner.py:171 | what precedes the last component is a prefix ending in '/', empty exactly without '/' |
| Variation.DirName | variation/variation/runner.py:171 | `os.path.dirname` for POSIX paths; its shape is stated by Variation.InputDirShape |
| Variation.Join | variation/variation/runner.py:171 | `os.path.join` starts with the directory, ends with the name, and puts a '/' between them when the directory is not empty |
| Variation.InputDir | variation/variation/runner.py:171 | the revision directory ends in "variation_output/" |
| Variation.InputDirShape | variation/variation/runner.py:171 | the revision directory is "variation_output/" under the template's directory prefix, under nothing exactly when the name has no '/' |
| Variation.FindChild | variation/variation/runner.py:114-115 | `find('vars')` gives the first child with the tag, or none |
| Variation.Template | variation/variation/runner.py:113-115 | each revision starts from the template without its first `vars` child, everything else kept |
| Variation.SecondVarsKept | variation/variation/runner.py:114-115 | only the first `vars` child goes; a second one stays in every revision |
| Variation.ExecutePipeline | variation/variation/runner.py:94-144 | `range(n)` revisions, none for a negative n; revision i is the substituted template, written to its revision file with its output name; a failed lookup stops the loop after the revisions before it |
| Variation.Run | variation/variation/runner.py:152-203 | `-n` is any integer; with `vars` the table is generated and solved before any revision, a generation error stops everything, and a negative `-n` runs no revision; without `vars` one revision runs with no variables; each revision carries its file and output name, and a failed lookup is the error |
| Export.Find | src/libfiles/export.cpp:103-104 | `find` gives the first occurrence of the pattern, or none |
| Export.Prefix | src/libfiles/export.cpp:103-104 | `substr(0, n)` is the prefix of that length, the whole string for `npos` |
| Export.OutputFileName | src/libfiles/export.cpp:102-104 | the output stem; its properties are stated by the three lemmas below |
| Export.OutputFileNameIsStem | src/libfiles/export.cpp:102-104 | the stem is a prefix of the name with no ".xml" or ".xodr" starting before its end, and one starting right after it when it is shorter |
| Export.OutputFileNameOfSuffixed | src/libfiles/export.cpp:102-104 | a stem without '.' followed by ".xml" or ".xodr" loses exactly that ending |
| Export.CutSearchAgrees | src/libfiles/export.cpp:103-104 | searching ".xodr" in the original name gives the same stem as searching it in the name already cut at ".xml" |
| Export.RunStages | src/libfiles/export.cpp:108-144 | the stages run in order up to the first non-zero status, which gives -1; 0 when all seven return 0 |
| Export.PipelineOutcomeAllStages | src/libfiles/export.cpp:108-144 | the status is 0 exactly when every stage returns 0, and otherwise the last stage run failed |
| Export.Library.SetFileName | src/libfiles/export.cpp:42-44 | sets the input file, nothing else |
| Export.Library.SetLogFile | src/libfiles/export.cpp:46-48 | sets the log file, nothing else |
| Export.Library.SetOutputName | src/libfiles/export.cpp:50-53 | sets the output name and marks it as given, nothing else |
| Export.Library.SetSilentMode | src/libfiles/export.cpp:59-61 | sets silent mode, nothing else |
| Export.Library.SetXmlSchemeLocation | src/libfiles/export.cpp:64-66 | sets the schema location, nothing else |
| Export.Library.ExecutePipeline | src/libfiles/export.cpp:68-145 | a null file gives -1 at once; otherwise the output name becomes the file unless one was set; an empty schema location gives -1 before any stage; otherwise the stage chain runs on the output stem |
| Export.Library.ExecPipeline | src/libfiles/export.cpp:55-57 | runs the pipeline on the file set by `setFileName` |

## Left out

- XML and DOM access (pugi, Xerces, `readIntAttrFromNode`, `getChildWithName`, `stod`): inputs are already-parsed records. A missing integer attribute reads as 0, as `as_int` does.
- Console and log output (`cout`, `cerr`, `throwWarning`, `throwError`, `printLogo`, `print`): warnings are returned as values or flags, and other messages are dropped.
- Floating point: the model works over `real`, with no rounding, no INFINITY (an unbounded end is `Unbounded`) and no NaN. The library's square root is a parameter.
- The helpers called by the core (`generateRoad`/`buildRoad`, `addObjects`, `addSignal`, `findTOffset`, `findMinLaneId`/`findMaxLaneId`, the lane finders, `fixAngle`, `sortRoads`, `createRoadConnection`) are not part of this model. They are function parameters, and contracts that depend on them are stated under explicit conditions on them.
- The network-linking block of `generateElevationProfiles` (src/generation/elevation.h:159-210) is not modelled. The reference road may be uninitialised, the offset is written to a copy, the `while` loop never ends once anything is queued, and the function has no final return. With `links` present the model stops at the outcome `EntersLinking`. The polynomial loop after it (elevation.h:214-221) is covered by `GenerateElevationProfile` alone.
- Elevation.GenerateElevationProfile: requires at least one key point, because `eps.size() - 1` wraps around for an empty list. It also requires non-zero radii and unequal curvatures in every stretch, because the source divides by them.
- Elevation.GetX1CutOff: states the root property only when the square root is exact. A negative discriminant gives NaN in the source and is not modelled.
- Elevation.CheckElevationProfiles: requires every road to carry at least one key point, because the source reads the first one unguarded. It also requires every road the duplicate scan reaches to carry two, because on a single key point the unsigned bound `size() - 2` wraps around and the source reads past the end of the list, which is undefined.
- Elevation.GenerateElevationProfiles: requires the same, for the same reasons.
- Elevation.ScanDuplicates: requires two key points, for the same reason.
- ConnectingRoad.SortKeyPoints: states only what `std::sort` promises, sorted and a permutation. The relative order of key points at equal offsets is unspecified in the source and is left open here.
- ConnectingRoad.Generate: `addObjects` also receives the network in the source and may add signals or controllers to it. The model keeps every field of the network but the roads and the segment counter unchanged, because `addObjects` here returns only a status and the road.
- TJunction.ApproachRoads: states the id, junction and predecessor of each road only when the helpers keep those stamped fields (`Env.KeepsApproachStamp`), because the helpers are not part of this model.
- TJunction.UserLinkRoadIds: states the ids only when `createRoadConnection` keeps them, for the same reason.
- TJunction.TableRoadIds: states the ids of non-empty rows only when `createRoadConnection` keeps them, for the same reason.
- TJunction.Generate: `addObjects` and `addSignal` also receive the network in the source, and `addSignal` may add controllers and count signals there. The model keeps every field of the network but the roads and junctions unchanged, because these helpers here act on the road only.
- Fixed-width integers: road ids are C++ `int` and are modelled as unbounded integers. The overflow of `100 * junc.id + data.roads.size() + 1` (src/tjunction.h:269, computed as `size_t` and narrowed to `int`), of `100 * j + k` for the approach roads, and of `100 * segment + id` (src/generation/connectingRoad.h:49) on very large ids or road counts is not modelled.
- Variation.FindVar: iterates over an element's children as `getchildren()` returns them (variation/variation/runner.py:55). That method was removed in Python 3.9, where the call raises AttributeError on the first element; the model follows the Python versions that still have it.
- `sOffset` reading in tjunction.h:65 uses `stod` on the coupler area's attribute. A malformed number throws in the source and is not modelled.
- runner.py side effects: the numpy draws for "normal" and "uniform" (the parameter `draw`), `numexpr`, the dependency solver (the parameter `solve`) and argparse are not modelled. Neither are file writes, `glob` and `os.remove`, `os.makedirs`, or loading the shared library.
- Variation.ExecutePipeline: the library calls for each revision (`setSilentMode`, `setFileName`, `setOutputName`, `execPipeline`) are recorded as the revision's file and output name, not run against `Export.Library`. The POSIX and Windows branches are identical and are modelled once.
- Variation.FindVarSubstitutes: `find_var` mutates a deep copy in place. It is modelled as a function on element values, so aliasing between elements is not captured; a deep copy has none.
- Variation.GetVarVal: the solver's values are taken as already rendered by `str`, so the formatting of floats is not modelled.
- Variation.InputDirShape: `os.path.dirname` and `os.path.join` are modelled for POSIX paths only.
- Export: `freopen` of the log file, `printLogo` and the bodies of the seven stages are not modelled. A stage's status is a function of the stage, the input file and the output stem, passed in by the caller. The stages also read the global settings (src/libfiles/export.cpp:40); how their result depends on `silentMode` and `xmlSchemeLocation` is not modelled, beyond the schema-location check of `executePipeline` itself. The initial values of the globals are constructor parameters, because export.h and settings.h are not part of this model.
- `laneSections.front()` and `geometries.back()` on an empty vector (src/tjunction.h:89-95, 142-144, 287-294) are undefined behaviour in the source. The model's `FrontSection` and `LastGeometry` give a default section and a zero geometry there instead; no contract relies on those values.
- A negative `-n` with a "normal" or "uniform" variable: numpy raises ValueError for the negative size, which the model leaves to the parameter `draw`. With an empty `vars` node, the dependency solver receives the negative count, which the model leaves to the parameter `solve`.
- src/executable/settingsExec.h is a settings struct with no behaviour and is not part of this model.

## Findings

| source | as written | input that shows it | evidently intended | confidence | as-written member | corrected member |
|---|---|---|---|---|---|---|
| src/tjunction.h:262-263 | a present `right` attribute is stored into `left`, so the right road mark passed to `createRoadConnection` is always "none" | a lane link with left="broken" right="solid" is connected with marks ("solid", "none", "none") | `right = laneLink.attribute("right").value()`, giving ("broken", "solid", "none") | high, not executed | TJunction.UserMarksAsWritten, TJunction.RightMarkOverwritesLeft, TJunction.MarksAsWrittenVsIntended, TJunction.LaneLinkRoadMarks | TJunction.UserMarks |
| src/generation/elevation.h:146 | the duplicate-offset scan runs while `i < size() - 2`, so it skips the last pair, and for a single key point the unsigned bound wraps to 2^64 - 1 | key points at offsets 0, 5, 5: the repeated offset is never reported | compare every consecutive pair, `i < size() - 1` | high, not executed | Elevation.DuplicateWarningsAsWritten, Elevation.DuplicateScanMissesLastPair, Elevation.AsWrittenSkipsOnlyLastPair | Elevation.DuplicateWarnings, Elevation.DuplicateCountZero |
