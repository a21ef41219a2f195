# hunting-stats core, modelled in Dafny

This project models the computational core of *hunting-stats*. That
repository collects a wildlife agency's big-game drawing results, stores
them as documents, aggregates them per region and district, and predicts
next year's drawing odds by simulation. The model covers these parts:

- **Drawing-results normaliser** (`parse_drawing_results.py`).
  - `parse_header` finds the columns of interest in a CSV header line.
  - `process_line` turns one row into the ten-field normalised record. It
    splits a shared "Item Type - Description" cell, trims long tag numbers,
    treats a blank point cell as 0 points, and parses integers.
  - The stored document adds the region (the first character of the tag)
    and `total_points` (applicants weighed by the point-squared rule).
- **Drawing simulation over a linked list of point categories**
  (`MongoDB_Data_Input/DrawSimul.py`).
  - A doubly linked list holds one node per point value, the newest at
    the head.
  - A node's weight is `apps * v^2` (`apps` when `v = 0`).
  - `run_drawing` repeatedly picks a random number in `[1, total weight]`.
    It walks the running prefix sums to the node that number falls in,
    and removes one applicant's weight from that node.
  - The list lives on the heap: `PointCatLinkList` keeps ghost `nodes`
    and `cats` sequences that mirror the chain.
- **Drawing simulation over a bag of applicants**
  (`Drawing_Simulation/DrawSimul.py`).
  - Each applicant is put in the bag once per unit of weight.
  - The bag is shuffled twice by the swap loop of `randomize_bag`.
  - Each tag redraws until it hits an applicant not drawn before.
- **Prediction handler** (`Drawing_Simulation/server.py`). It runs
  `NUM_DWGS` = 10 independent drawings, sums them per point value, and
  turns each sum into a success percentage.
- **Per-year and per-point statistics objects** (`PointStat`,
  `TagPointStat`, `TagYearStat`).
- **Region and district query objects** (`Queries/RegObject.py`,
  `Queries/DistObject.py`).
  - Each has a five-year window.
  - Its grouping loop turns the database's sorted `(key, year)` sums into
    one record per key. Each record has four five-entry lists, written at
    `year - start` with Python's negative-index semantics.
- **`reformat_residency`** (`Queries/server.py`).

Randomness (`random.randint`) is a parameter: a sequence of the numbers the
calls would return, with preconditions that each lies in the range the
call asks for. Python's `round(..., 1)` is not modelled: percentages and
averages are exact `real` quotients. Python exceptions that the source
raises and never catches become error results, e.g.:

- `ValueError` from `randint(1, 0)`;
- `IndexError` and `KeyError` in `process_line`;
- `IndexError` in `draw_rand_id` when a forecast longer than 21 categories has an applicant drawn past the last result slot;
- `ZeroDivisionError` and `IndexError` in the grouping loops;
- `AttributeError` in `delete_node`.

The model also shows how the bag drawing goes wrong when there are more
tags than applicants. The retry recursion of `draw_rand_id` then never
finds a fresh applicant: `ApplicantBag.AllDrawnNeverChosen` and
`ApplicantBag.TagsNeverFinish` prove that no finite supply of random
numbers completes such a drawing. In Python it ends in `RecursionError`.

## Model

| member | source | states |
|---|---|---|
| PointWeight.Marginal | MongoDB_Data_Input/DrawSimul.py:15-18 | One applicant of point value `v` weighs at least 1 and at least `v` (1 for `v = 0`, `v^2` otherwise). |
| PointWeight.Weight | MongoDB_Data_Input/DrawSimul.py:15-18 | The weight of a node is its applicant count times the per-applicant weight. |
| PointWeight.WeightStep | MongoDB_Data_Input/DrawSimul.py:113-120 | Removing one applicant removes exactly one per-applicant weight from the node's weight. |
| CategoryDraw.SumWeightsUpdate | MongoDB_Data_Input/DrawSimul.py:113-120 | Changing one node changes the total weight by exactly that node's difference. |
| CategoryDraw.SumAppsUpdate | MongoDB_Data_Input/DrawSimul.py:113-120 | Changing one node changes the applicant total by exactly that node's difference. |
| CategoryDraw.PositiveWeightIffApplicants | MongoDB_Data_Input/DrawSimul.py:96-103 | With non-negative counts, the total weight is at least the applicant total, and `randint(1, num_apps)` has a range exactly when someone applies. |
| CategoryDraw.Through | MongoDB_Data_Input/DrawSimul.py:107-110 | `apps_up_to` on node `i` is the weight before `i` plus `i`'s own weight. |
| CategoryDraw.SelectFrom | MongoDB_Data_Input/DrawSimul.py:106-110 | The scan from node `k` stops at the first node whose running total reaches `r`, and every node it passes stays below `r`. |
| CategoryDraw.Select | MongoDB_Data_Input/DrawSimul.py:106-110 | For `1 <= r <= total weight` the scan ends on a node in the list. That node's prefix interval contains `r` and it has positive weight, hence (with consistent weights) at least one applicant. |
| CategoryDraw.SelectUnique | MongoDB_Data_Input/DrawSimul.py:106-110 | Any node that reaches `r` with all earlier nodes below `r` is the node the scan selects. |
| CategoryDraw.SoleCategorySelected | MongoDB_Data_Input/DrawSimul.py:106-110 | When only one node carries weight, every number in range selects it. |
| CategoryDraw.Taken | MongoDB_Data_Input/DrawSimul.py:113-120 | A drawn node keeps its point value and loses one applicant and one per-applicant weight, so a node whose weight matched its count still does. |
| CategoryDraw.Draw | MongoDB_Data_Input/DrawSimul.py:103-120 | One draw keeps the state consistent. Only the selected node changes (it loses one applicant), its point value's result gains one, `num_apps` drops by one per-applicant weight, and the result sum rises by one. |
| CategoryDraw.Steps | MongoDB_Data_Input/DrawSimul.py:102-120 | A completed loop keeps 21 result slots and the number of nodes. `StepsCount` and `StepsAccounted` state what it hands out. |
| CategoryDraw.StepOnce | MongoDB_Data_Input/DrawSimul.py:102-103 | A loop iteration with numbers left and positive weight takes the first number, which lies in range, and continues from the drawn state. |
| CategoryDraw.StepsCount | MongoDB_Data_Input/DrawSimul.py:102-120 | A completed loop of `n` draws keeps the state consistent, adds `n` to the result sum and removes `n` applicants. |
| CategoryDraw.StepsAccounted | MongoDB_Data_Input/DrawSimul.py:102-120 | After a completed loop, each node's lost applicants equal the tags recorded for its point value. |
| CategoryDraw.StepsFailIffOversubscribed | MongoDB_Data_Input/DrawSimul.py:102-103 | The loop raises (`randint(1, 0)`) exactly when there are more tags than applicants, and a completed loop leaves no count negative. |
| CategoryDraw.Table | MongoDB_Data_Input/DrawSimul.py:81-89 | `init_ll` builds one node per category, the last category at the head: node `k` has point value `n-1-k` and count `e[n-1-k]`, with consistent weights. |
| CategoryDraw.TableSnoc | MongoDB_Data_Input/DrawSimul.py:85-87 | Adding a category puts its node in front of the existing ones. |
| CategoryDraw.TableWeight | MongoDB_Data_Input/DrawSimul.py:96-100 | The list's total weight is the sum of the categories' weights. |
| CategoryDraw.TableApps | MongoDB_Data_Input/DrawSimul.py:81-89 | The list's applicant total is `sum(expected_apps)`. |
| CategoryDraw.Start | MongoDB_Data_Input/DrawSimul.py:93-100 | The drawing starts from 21 zero results and `num_apps` equal to the total weight, in a consistent state. |
| CategoryDraw.DrawingOutcome | MongoDB_Data_Input/DrawSimul.py:91-122 | For non-negative forecasts the drawing fails exactly when tags outnumber applicants. Otherwise it returns 21 results summing to the tag count, each point value getting between 0 and its applicants, and values past the forecast getting 0. |
| CategoryDraw.ResultsWithinTable | MongoDB_Data_Input/DrawSimul.py:91-122 | Any state accounted against the start holds, per point value, between 0 and its applicants in tags. |
| PointCatList.PointCatNode.constructor | MongoDB_Data_Input/DrawSimul.py:9-18 | A new node is unlinked, holds its point value and count, and weighs `apps` times the per-applicant weight. |
| PointCatList.PointCatLinkList.Apart | MongoDB_Data_Input/DrawSimul.py:21-35 | In a list linked from head to a null tail, no node occurs twice. |
| PointCatList.PointCatLinkList.constructor | MongoDB_Data_Input/DrawSimul.py:24-25 | A new list is empty and well linked. |
| PointCatList.PointCatLinkList.AddNode | MongoDB_Data_Input/DrawSimul.py:27-35 | The new node becomes the head, the old head links back to it, and the list stays well linked with everything else unchanged. |
| PointCatList.PointCatLinkList.DeleteNode | MongoDB_Data_Input/DrawSimul.py:37-48 | As written: deleting the head changes nothing; deleting an inner node splices it out; deleting the tail unlinks it and then raises AttributeError. |
| PointCatList.PointCatLinkList.DeleteNodeFixed | MongoDB_Data_Input/DrawSimul.py:37-48 | As intended: the node is removed wherever it sits, and the others keep their order and contents. |
| PointCatList.PointCatLinkList.UnlinkHead | MongoDB_Data_Input/DrawSimul.py:41-44 | Removing the head makes its successor the head. |
| PointCatList.PointCatLinkList.UnlinkTail | MongoDB_Data_Input/DrawSimul.py:46-47 | Removing the tail makes its predecessor the tail. |
| PointCatList.PointCatLinkList.UnlinkMiddle | MongoDB_Data_Input/DrawSimul.py:46-48 | An inner node is spliced out by linking its neighbours to each other, and the list stays well linked. |
| PointCatList.PointCatLinkList.Join | MongoDB_Data_Input/DrawSimul.py:47-48 | Linking the one unlinked neighbour pair restores a well-linked list. |
| PointCatList.PointCatLinkList.SumAdjApps | MongoDB_Data_Input/DrawSimul.py:96-100 | The walk from the head returns the total weight of the list. |
| PointCatList.PointCatLinkList.FindNode | MongoDB_Data_Input/DrawSimul.py:106-110 | The scan returns the node `Select` names for the random number. |
| PointCatList.PointCatLinkList.TakeApplicant | MongoDB_Data_Input/DrawSimul.py:113-120 | The node loses one applicant and one per-applicant weight, and the amount removed from `num_apps` is that weight. |
| PointCatList.InitLinkedList | MongoDB_Data_Input/DrawSimul.py:81-89 | `init_ll` returns a fresh, well-linked list whose contents are `Table(expected_apps)`. |
| PointCatList.DrawSimul.constructor | MongoDB_Data_Input/DrawSimul.py:72-79 | Stores the settings, builds the list from the forecast, and starts with no results. |
| PointCatList.DrawSimul.DrawOnce | MongoDB_Data_Input/DrawSimul.py:103-120 | One iteration on the heap performs exactly `CategoryDraw.Draw`. |
| PointCatList.DrawSimul.RunDrawing | MongoDB_Data_Input/DrawSimul.py:91-122 | `run_drawing` returns, and leaves in `dwg_results` and the list, exactly what `Steps` computes from the start state, or its error. |
| PointCatList.DrawSimul.DrawTags | MongoDB_Data_Input/DrawSimul.py:102-120 | The tag loop on the heap agrees with `Steps` from the current state. |
| ApplicantBag.CatOf | Drawing_Simulation/DrawSimul.py:88-95 | Every `app_id` below the applicant total falls in exactly one category's id range. |
| ApplicantBag.Copies | Drawing_Simulation/DrawSimul.py:91-94 | The `while new_app.apps > 0` loop adds `apps` slots. |
| ApplicantBag.Layout | Drawing_Simulation/DrawSimul.py:88-95 | The filled bag has one slot per unit of weight. |
| ApplicantBag.LayoutNext | Drawing_Simulation/DrawSimul.py:89-95 | Each category appends its block of consecutive ids, each repeated per-applicant-weight times. |
| ApplicantBag.LayoutCount | Drawing_Simulation/DrawSimul.py:88-95 | The filled bag holds exactly the applicants `0..N-1`, each with its category's point value and as many times as its weight, and nothing else. |
| ApplicantBag.Swap | Drawing_Simulation/DrawSimul.py:38-42 | One pass exchanges the two slots and leaves every other slot alone. |
| ApplicantBag.ShuffledPermutes | Drawing_Simulation/DrawSimul.py:32-42 | `randomize_bag` yields a permutation of the bag. |
| ApplicantBag.Shuffled | Drawing_Simulation/DrawSimul.py:32-42 | `randomize_bag` keeps the bag's length and puts only slots of the old bag in it. `ShuffledPermutes` shows it is a permutation. |
| ApplicantBag.Pick | Drawing_Simulation/DrawSimul.py:74-84 | A chosen applicant is the slot named by the last number used, and was not drawn before. An empty bag fails exactly with `randint(0, -1)`. A pick alone never raises IndexError. |
| ApplicantBag.Attempt | Drawing_Simulation/DrawSimul.py:74-84 | A whole `draw_rand_id` against `n` result slots: it chooses what `Pick` chooses when that point value has a slot, and raises IndexError exactly when the chosen point value has none. |
| ApplicantBag.PickRetries | Drawing_Simulation/DrawSimul.py:80-81 | Every number spent before the choice named an applicant already drawn. A pick that runs out saw only such applicants. |
| ApplicantBag.PickRetry | Drawing_Simulation/DrawSimul.py:80-81 | A number naming a drawn applicant is spent and the retry uses the rest. |
| ApplicantBag.PickFresh | Drawing_Simulation/DrawSimul.py:77-84 | A number naming a fresh applicant chooses it with one number. |
| ApplicantBag.AllDrawnNeverChosen | Drawing_Simulation/DrawSimul.py:80-81 | Once every applicant in a non-empty bag is drawn, no supply of numbers ever yields a choice (the recursion does not end). |
| ApplicantBag.Tags | Drawing_Simulation/DrawSimul.py:107-110 | The tag loop keeps the number of result slots, and with no tags to draw it changes nothing. The lemmas below state what a completed loop hands out. |
| ApplicantBag.TagsStopped | Drawing_Simulation/DrawSimul.py:107-108 | A pick that stops stops the whole tag loop with the same reason. |
| ApplicantBag.TagsChosen | Drawing_Simulation/DrawSimul.py:83-84 | A chosen applicant joins `draw_ids`, its point value's result gains one, and the loop continues with the remaining numbers. |
| ApplicantBag.TagsCount | Drawing_Simulation/DrawSimul.py:107-110 | A completed loop of `n` tags adds exactly `n` new ids, all from the bag, and `n` to the result sum. |
| ApplicantBag.TagsNeverFinish | Drawing_Simulation/DrawSimul.py:107-108 | With more tags than undrawn applicants the loop never completes, whatever numbers are supplied. |
| ApplicantBag.TagsInRange | Drawing_Simulation/DrawSimul.py:83-84 | When every point value in the bag has a result slot, the loop never raises IndexError. |
| ApplicantBag.AmongWithin | Drawing_Simulation/DrawSimul.py:88-95 | A category contributes no more distinct ids than it has applicants. |
| ApplicantBag.ViewOfLayout | Drawing_Simulation/DrawSimul.py:86-98 | Any arrangement of the filled bag holds ids `0..N-1`, each with its category's point value. |
| ApplicantBag.TagsTally | Drawing_Simulation/DrawSimul.py:107-110 | In a completed loop, each point value's result grows by the newly drawn ids of that category. |
| ApplicantBag.DrawingOutcome | Drawing_Simulation/DrawSimul.py:100-110 | On any arrangement of the filled bag: more tags than applicants never completes, and with at most 21 categories no IndexError is raised. A completed drawing gives each of the 21 point values between 0 and its applicants, nothing past the forecast, and results summing to the tag count. |
| ApplicantBag.TallyBounds | Drawing_Simulation/DrawSimul.py:83-84 | Tags counted from zero stay within each category's applicants, and point values past the forecast get none. |
| ApplicantBag.Trial | Drawing_Simulation/DrawSimul.py:100-110 | A whole `run_drawing` on a fresh object returns 21 results when it completes, and 21 zeros for no tags. |
| ApplicantBag.TrialOutcome | Drawing_Simulation/DrawSimul.py:100-110 | A whole `run_drawing` (fill, two shuffles, tag loop) fails when tags outnumber applicants, and never raises IndexError for at most 21 categories. A completed one returns 21 results bounded per category and summing to `num_tags`. |
| ApplicantBag.ApplicantNode.constructor | Drawing_Simulation/DrawSimul.py:9-16 | A new slot carries its id and point value, with `apps` set to the per-applicant weight. |
| ApplicantBag.Entries | Drawing_Simulation/DrawSimul.py:44-47 | The drawing sees each slot's id and point value, slot by slot. |
| ApplicantBag.EntriesShuffled | Drawing_Simulation/DrawSimul.py:32-42 | Shuffling the nodes shuffles what the drawing sees in the same way. |
| ApplicantBag.LayoutPoints | Drawing_Simulation/DrawSimul.py:88-95 | The filled bag only holds point values of forecast categories. |
| ApplicantBag.PointsAfterFill | Drawing_Simulation/DrawSimul.py:86-98 | After filling and both shuffles, no slot has a negative point value. |
| ApplicantBag.AppBag.constructor | Drawing_Simulation/DrawSimul.py:22-24 | A new bag is empty with size 0. |
| ApplicantBag.AppBag.AddToBag | Drawing_Simulation/DrawSimul.py:26-30 | Appends one slot and keeps `size` equal to the bag's length. |
| ApplicantBag.AppBag.RandomizeBag | Drawing_Simulation/DrawSimul.py:32-42 | The bag becomes `Shuffled(old bag, numbers)`, which is a permutation of it. |
| ApplicantBag.AppBag.DrawFromBag | Drawing_Simulation/DrawSimul.py:44-47 | Returns the slot at the index, counting from the end for a negative index. |
| ApplicantBag.DrawSimul.constructor | Drawing_Simulation/DrawSimul.py:60-72 | Stores the settings, with an empty bag, no drawn ids and 21 zero results. |
| ApplicantBag.DrawSimul.DrawRandId | Drawing_Simulation/DrawSimul.py:74-84 | The recursive draw returns `Attempt` of the bag. On a choice it adds the id and increments that point value's result. When it stops, IndexError included, nothing changes. |
| ApplicantBag.DrawSimul.AddApplicantsToBag | Drawing_Simulation/DrawSimul.py:86-98 | The bag becomes the old bag plus `Layout(expected_apps)`, shuffled twice. |
| ApplicantBag.DrawSimul.FillBag | Drawing_Simulation/DrawSimul.py:88-95 | The fill loop appends exactly `Layout(expected_apps)`. |
| ApplicantBag.DrawSimul.AddCategory | Drawing_Simulation/DrawSimul.py:89-95 | One category appends its block and advances `app_id` by its count. |
| ApplicantBag.DrawSimul.AddApplicant | Drawing_Simulation/DrawSimul.py:91-94 | One applicant adds its per-applicant weight of copies. |
| ApplicantBag.DrawSimul.RunDrawing | Drawing_Simulation/DrawSimul.py:100-110 | `run_drawing`, for a forecast of any length, fills and shuffles the bag, then returns and stores exactly what `Tags` computes over it, or its stop reason (IndexError included). |
| ApplicantBag.DrawSimul.DrawTags | Drawing_Simulation/DrawSimul.py:107-108 | The tag loop agrees with `Tags` on the current bag. |
| Predictions.RunTrials | Drawing_Simulation/server.py:28-36 | The ten simulations each yield the result of an independent `Trial` on their own numbers. A failure is some trial's failure. |
| Predictions.NewSimulations | Drawing_Simulation/server.py:29-32 | Ten distinct fresh objects are created, each with its own bag and in the constructor's state. |
| Predictions.RunOne | Drawing_Simulation/server.py:35-36 | Running a fresh object gives exactly its `Trial`'s results or error. |
| Predictions.SumTrials | Drawing_Simulation/server.py:39-42 | `total_results[i]` is the sum of entry `i` over all trials. |
| Predictions.AddColumn | Drawing_Simulation/server.py:41-42 | The inner loop sets only entry `index` to its column sum. |
| Predictions.SumOfColumns | Drawing_Simulation/server.py:39-42 | The column sums add up to all entries of all trials. |
| Predictions.SumAllConstant | Drawing_Simulation/server.py:39-42 | Trials each handing out `c` tags hand out `|trials| * c` together. |
| Predictions.ColumnWithin | Drawing_Simulation/server.py:39-42 | A column of entries in `[0, hi]` sums to within `[0, |trials| * hi]`. |
| Predictions.SuccessPercent | Drawing_Simulation/server.py:46-50 | 0 when nobody applies. Otherwise the percentage lies in `[0, 100]` whenever the total is within ten times the applicants. |
| Predictions.SuccessPercentages | Drawing_Simulation/server.py:45-52 | One percentage per total, in order. |
| Predictions.TotalsWithin | Drawing_Simulation/server.py:35-42 | Ten completed drawings hand out ten times `num_tags`, and no point value gets more than ten times its applicants. |
| Predictions.GetPointPredictions | Drawing_Simulation/server.py:20-56 | With more tags than applicants the handler fails. When every drawing completes, it succeeds exactly when the forecast has at least 21 entries; a shorter one raises IndexError in the percentage loop. Any other failure is some drawing's. On success it returns the request with both keys added: `total[v]` is the sum of entry `v` over the ten drawings' results, the totals sum to `10 * num_tags`, each is bounded, and each percentage lies in `[0, 100]`. |
| Ratios.Percentage | MongoDB_Data_Input/PointStat.py:27-29 | `part / whole * 100` exactly, within `[0, 100]` when `0 <= part <= whole`. |
| ParseResults.ParseHeader | MongoDB_Data_Input/parse_drawing_results.py:71-108 | `parse_header` gives the locations `Locate` assigns to the comma-separated titles. |
| ParseResults.RecordColumn | MongoDB_Data_Input/parse_drawing_results.py:85-106 | One loop pass records column `i` under its "Item Type" key and its `elif`-chain key. |
| ParseResults.Locate | MongoDB_Data_Input/parse_drawing_results.py:84-106 | Every key found holds a column of the header whose title names that key. |
| ParseResults.LocateLast | MongoDB_Data_Input/parse_drawing_results.py:84-106 | A key is found exactly when some column names it, and then it holds the last such column. |
| ParseResults.RecordKey | MongoDB_Data_Input/parse_drawing_results.py:85-106 | One column sets a key to itself exactly when its title names the key, and otherwise leaves the key as it was. |
| ParseResults.Cell | MongoDB_Data_Input/parse_drawing_results.py:25-38 | `line[data_indices[f]]`: KeyError for a missing key, IndexError past the row's end, otherwise that cell. |
| ParseResults.License | MongoDB_Data_Input/parse_drawing_results.py:32-35 | An unshared cell is returned as is. A shared cell unpacks exactly when it splits into two parts around " - ", and ValueError is raised otherwise. The number is the text before the first " - ", and the two parts join back to the cell. |
| ParseResults.TagOf | MongoDB_Data_Input/parse_drawing_results.py:38-40 | A tag of at most six characters is kept. A longer one is cut before its first space, and is kept whole when it has none. |
| ParseResults.PointOf | MongoDB_Data_Input/parse_drawing_results.py:43-47 | A blank point cell is 0. Otherwise the value is `int(float(cell))`, failing exactly when that fails. |
| ParseResults.ProcessLine | MongoDB_Data_Input/parse_drawing_results.py:9-68 | A row is skipped exactly when its residency is blank, and KeyError is raised when residency is not located. A record is produced exactly when every key is located within the row, the license cells unpack, and the license number, point value and both counts convert; every other row raises. Each field of the record comes from its column: the license number and type from `License` (the number through `int`), tag, species, district, the point value from `PointOf`, and both counts through `int`. |
| ParseResults.ToDocument | MongoDB_Data_Input/parse_drawing_results.py:177-194 | The region is the tag's first character (IndexError on an empty tag), and `total_points` is the applicants times the point-squared weight. |
| Text.FindFrom | MongoDB_Data_Input/parse_drawing_results.py:85 | The lowest occurrence at or after `from`, or -1 when none exists. |
| Text.Find | MongoDB_Data_Input/parse_drawing_results.py:85-103 | `s.find(sub)` is -1 exactly when `sub` does not occur, and otherwise the first occurrence. |
| Text.Split | MongoDB_Data_Input/parse_drawing_results.py:79 | `split` gives at least one part, and no part contains the separator. |
| Text.JoinSplit | MongoDB_Data_Input/parse_drawing_results.py:79 | Joining the parts with the separator gives the text back. |
| Text.BeforeFirst | MongoDB_Data_Input/parse_drawing_results.py:50-53 | `s.split(sep)[0]` is the text before the first separator, or all of it. |
| Text.Strip | MongoDB_Data_Input/parse_drawing_results.py:58-65 | `strip()` leaves no white space at either end, never lengthens the text, and keeps text without such space whole. |
| Text.Upper | Queries/RegObject.py:10-11 | `upper()` keeps the length, leaves no lower-case ASCII letter, and changes only those letters. |
| Text.UpperIdempotent | Queries/DistObject.py:15-16 | Upper-casing twice equals upper-casing once. |
| Text.ParseInt | MongoDB_Data_Input/parse_drawing_results.py:58-65 | `int(s)` reads plain digit text as its value. A success needs non-blank text, and a negative result needs a leading minus. `ParseIntToString` is its inverse. |
| Text.ParseIntToString | MongoDB_Data_Input/parse_drawing_results.py:58 | `int(str(n)) == n` for every integer. |
| Text.ParseTruncated | MongoDB_Data_Input/parse_drawing_results.py:47 | `int(float(s))` reads plain digit text as its value. A success needs non-blank text, and a negative result needs a leading minus. |
| Text.ParseTruncatedAgrees | MongoDB_Data_Input/parse_drawing_results.py:47 | On integer text, `int(float(s))` equals `int(s)`. |
| PointStats.PointStat.constructor | MongoDB_Data_Input/PointStat.py:8-14 | Stores year and points, with every count and the percentage zero. |
| PointStats.PointStat.SetApps | MongoDB_Data_Input/PointStat.py:16-22 | Stores the applicants, and the adjusted applicants become their point-squared weight. |
| PointStats.PointStat.SetSuccesses | MongoDB_Data_Input/PointStat.py:24-25 | Stores the successes only. |
| PointStats.PointStat.SetPercSuccess | MongoDB_Data_Input/PointStat.py:27-29 | With no applicants the percentage is unchanged. Otherwise it is successes over applicants times 100, within `[0, 100]` when successes are within applicants. |
| PointStats.PointStat.ConvertToDict | MongoDB_Data_Input/PointStat.py:31-39 | The dictionary carries the current fields, and its adjusted applicants are the weight of its applicants. |
| TagPointStats.PointStat.constructor | MongoDB_Data_Input/TagPointStat.py:5-11 | Stores year and points, with every count and the percentage zero. |
| TagPointStats.PointStat.SetApps | MongoDB_Data_Input/TagPointStat.py:13-19 | Stores the applicants, and the points spent become their point-squared weight. |
| TagPointStats.PointStat.SetSuccesses | MongoDB_Data_Input/TagPointStat.py:21-22 | Stores the successes only. |
| TagPointStats.PointStat.SetPercSuccess | MongoDB_Data_Input/TagPointStat.py:24-26 | As for `PointStat`: unchanged with no applicants, otherwise the exact percentage, within `[0, 100]`. |
| TagPointStats.PointStat.ConvertToDict | MongoDB_Data_Input/TagPointStat.py:28-36 | The dictionary carries the current fields, with points spent equal to the applicants' weight. |
| TagYearStats.YearStat.constructor | MongoDB_Data_Input/TagYearStat.py:5-11 | Stores the year, with every count, the percentage and the average zero. |
| TagYearStats.YearStat.SetApps | MongoDB_Data_Input/TagYearStat.py:13-14 | Stores the applicants only. |
| TagYearStats.YearStat.SetPtsSpent | MongoDB_Data_Input/TagYearStat.py:16-17 | Stores the points spent only. |
| TagYearStats.YearStat.SetSuccesses | MongoDB_Data_Input/TagYearStat.py:19-20 | Stores the successes only. |
| TagYearStats.YearStat.SetPercSuccess | MongoDB_Data_Input/TagYearStat.py:22-24 | Unchanged with no applicants, otherwise the exact percentage, within `[0, 100]` when successes are within applicants. |
| TagYearStats.YearStat.SetAvgPtsPerApp | MongoDB_Data_Input/TagYearStat.py:26-30 | Unchanged with no applicants. Otherwise the average times the applicants is 100 times the weighted points (the source's factor 100). |
| TagYearStats.YearStat.ConvertToDict | MongoDB_Data_Input/TagYearStat.py:32-40 | The six keys carry the current fields. |
| YearSeries.Years | Queries/RegObject.py:14-16 | The window is the five consecutive years ending at `end_year`. |
| YearSeries.Zeroed | Queries/RegObject.py:64-67 | A fresh record has four lists of five entries, every entry 0. |
| YearSeries.Slot | Queries/RegObject.py:71-74 | `xs[i] = v` succeeds exactly for `-n <= i < n` and writes at `i`, or at `n + i` for a negative `i`. Otherwise it raises IndexError. |
| YearSeries.Average | Queries/RegObject.py:74 | ZeroDivisionError exactly when the group has no applicants. Otherwise the average times the applicants is the weighted helper. |
| YearSeries.Write | Queries/RegObject.py:71-74 | The four assignments set position `k` to the group's values and leave every other position unchanged. |
| YearSeries.HeadsShape | Queries/RegObject.py:56-69 | The runs of equal keys: neighbours differ, the first run is the first key and the last run the last key. |
| YearSeries.UnsortedRepeats | Queries/RegObject.py:39-41 | If the stream were not sorted by key, a key that returns after another would start a second record. |
| Regions.Begin | Queries/RegObject.py:59-69 | Defines the first half of an iteration: a new region appends the current record (unless it is the placeholder) and starts a zeroed one. Its contract states that the four lists keep equal lengths. |
| Regions.Placeholder | Queries/RegObject.py:47-54 | `new_obj` starts with no region, four empty lists and the object's years. `Begin` never appends it, so it reaches `data` only for an empty result (see `SetData`). |
| Regions.Place | Queries/RegObject.py:71-74 | Defines the write at `year - start`, with the slot checked before the average as the assignments come before the division. Its contract states that a successful write keeps the four lists of equal length. |
| Regions.Step | Queries/RegObject.py:56-74 | One iteration keeps the four lists of the current record of equal length. |
| Regions.Fold | Queries/RegObject.py:47-74 | The loop from the placeholder keeps the four lists of equal length. |
| Regions.HaltSticks | Queries/RegObject.py:56-74 | After an exception, later groups change nothing. |
| Regions.RecordsAreRuns | Queries/RegObject.py:47-76 | A non-empty stream without exceptions gives one record per run of equal regions, in order. Each has the run's region, five-entry lists and the object's years, and the last record holds the last group's region. |
| Regions.Visit | Queries/RegObject.py:57-74 | One loop body: `new_obj` is appended exactly when a new region follows a real record. The new state or exception is exactly `Step`'s. |
| Regions.RegionsObject.constructor | Queries/RegObject.py:8-17 | Upper-cases residency and species, and sets the window `end_year - 4 .. end_year` with empty data. |
| Regions.RegionsObject.SetData | Queries/RegObject.py:47-76 | `data` only grows: by `Fold`'s records plus the last one, by just the placeholder for no results, or by the records appended before an exception, which is returned. |
| Districts.Begin | Queries/DistObject.py:58-71 | Defines the first half of an iteration: no current record, or a new district, starts a zeroed record and appends the current one if there is one. |
| Districts.Place | Queries/DistObject.py:73-79 | Defines the write, with the average computed before the slot is written. Its contract states that writing appends nothing, whether it succeeds or raises, and that a success keeps the lists of equal length. |
| Districts.Step | Queries/DistObject.py:57-79 | One iteration leaves a current record with lists of equal length. |
| Districts.Fold | Queries/DistObject.py:56-79 | The loop from `curr_dist = None` keeps any current record's lists of equal length. |
| Districts.HaltSticks | Queries/DistObject.py:56-79 | After an exception, later groups change nothing. |
| Districts.SameRun | Queries/DistObject.py:73-79 | A group of the current district adds no record. |
| Districts.NewRun | Queries/DistObject.py:58-71 | A group of another district appends the current record and starts one for the new district. |
| Districts.DistrictsAreRuns | Queries/DistObject.py:56-81 | A non-empty stream without exceptions gives one record per run of equal districts, in order, each with five-entry lists and the object's years. `curr_dist` holds the last district. |
| Districts.Visit | Queries/DistObject.py:58-79 | One loop body: `curr_dist` is appended exactly when a different district follows it. The written record or exception is exactly `Place`'s. |
| Districts.DistObject.constructor | Queries/DistObject.py:8-17 | Upper-cases species and residency, and sets the window `end_year - 4 .. end_year` with empty data. |
| Districts.DistObject.QueryDistrictsData | Queries/DistObject.py:56-81 | `data` only grows: by `Fold`'s records plus `curr_dist`, by `None` alone for no results, or by the records appended before an exception, which is returned. |
| Residency.Head | Queries/server.py:19 | `s[:n]` has length `min(n, len(s))` and is a prefix of `s`. |
| Residency.ReformatResidency | Queries/server.py:17-22 | As written: the result is always "resident". |
| Residency.ReformatResidencyFixed | Queries/server.py:17-22 | As intended: "nonresident" exactly when the choice starts with "non" in any case, and "resident" otherwise. |
| Residency.ResidencyChoices | Queries/server.py:17-22 | The choice "nonresident" maps to "resident" as written, and to "nonresident" (in either case) when fixed. |

## Left out

- Randomness: `random.seed()` and `random.randint` are replaced by supplied number sequences whose ranges are preconditions. The model's `OutOfNumbers` outcome means only that the supply was too short. It is how non-termination of the retry recursion shows up.
- Python's recursion limit: `draw_rand_id` recurses once per retry. The model's recursion is bounded only by the supplied numbers, not by `RecursionError`.
- Floating point and `round(..., 1)`: percentages and averages are exact rationals (`real`). `int(float(s))` is modelled only on plain decimal text with an optional sign and fraction. Exponents, underscores, `inf` and `nan` are not modelled.
- `Text.ParseInt`: `int(s)` is modelled on ASCII decimal text only. Python also accepts underscores between digits and non-ASCII digits; the model treats such text as a ValueError.
- `str.upper()` is modelled on ASCII letters only, and `strip()` on ASCII white space.
- File and spreadsheet I/O, the `main` loop of `parse_drawing_results.py`, the chunked inserts into MongoDB, and printing are not part of this model.
- The MongoDB aggregation pipelines are not modelled. The grouping loops take the pipeline's output as a sequence of groups, assumed sorted as the `$sort` stage promises. `YearSeries.UnsortedRepeats` shows what would happen otherwise.
- `get_tags` and `get_districts` of the query objects, `TagObject`, `hunting_db_queries.py`, the `MongoDB_Data_Input` copies of the region and district objects, `start_services.py` and the Flask routes other than the prediction handler are not part of this model.
- Region and district keys are strings. A null key from the database (Python `None`) is not modelled.
- `CategoryDraw.DrawingOutcome` and `PointCatList.DrawSimul.RunDrawing` require at most 21 categories. More would index past `dwg_results` (IndexError) once such a category is drawn. The per-applicant bag (`ApplicantBag`) models that IndexError instead.
- `ApplicantBag.AppBag.DrawFromBag`: requires an index within the bag. The callers only pass such indices.
- `ApplicantBag.DrawSimul.AddApplicantsToBag`: the two `randomize_bag` calls take two separate number sequences.
- `PointCatList.PointCatLinkList.AddNode`: requires a node not already in the list. The source never re-adds a node.
- `TagYearStats.YearStat.SetAvgPtsPerApp`: the factor 100 is kept as the source has it, although the docstring describes a plain average.
- `print_list` and `analyze_trends` (a stub) are not modelled.
- Negative forecast counts: the bag model treats `range(n)` of a negative count as empty, as Python does. The linked-list model allows them but proves its bounds only for non-negative forecasts.

## Findings

| source | as written | input that shows it | evidently intended | confidence | as-written member | corrected member |
|---|---|---|---|---|---|---|
| MongoDB_Data_Input/DrawSimul.py:42-44 | Deleting the head sets `head` to the node being deleted, so the list is unchanged. | Delete the head of a list of two nodes: the head is still that node. | The head's successor becomes the head. | high (not executed) | PointCatList.PointCatLinkList.DeleteNode | PointCatList.PointCatLinkList.DeleteNodeFixed |
| MongoDB_Data_Input/DrawSimul.py:47-48 | Deleting the tail sets `prev_node.next = None` and then reads `None.prev`, raising AttributeError after unlinking. | Delete the tail of a list of two nodes. | The tail is unlinked and the call returns normally. | high (not executed) | PointCatList.PointCatLinkList.DeleteNode | PointCatList.PointCatLinkList.DeleteNodeFixed |
| Queries/server.py:19 | `res_choice[:2].upper() == "NON"` compares at most two characters with three, so it is never true. | "nonresident" gives "resident". | Compare the first three characters. | high (not executed) | Residency.ReformatResidency | Residency.ReformatResidencyFixed |
