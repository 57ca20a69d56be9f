# MIFEM organism tracking and activity indices in Dafny

MIFEM (a microfauna evaluation pipeline) follows small protozoa and large microfauna through
microscope video and turns their trajectories into activity indices. This project models the
core of that pipeline and proves what it does:

- **Small protozoa** (`small_protozoa/`): the per-track state (`Track`, one `SmallTrack.Track`
  class), the greedy nearest-neighbour tracker (`SmallTracker.Tracker`), the screen-margin box
  filter (`BugsFilter.BBoxFilter` and `BBox`), the frame-difference detector's clustering, noise
  filter and control flow (`SmallDetect`), the box overlap ratio (`SportsType`) and the
  large-organism activity bookkeeping of `Bp_frame` (`FrameDiffer.BpFrame`).
- **Large microfauna** (`big_microfauna/`): one tracked organism (`LargeBug.AbstractBug`),
  the record manager (`BugManager.AbstractBugManager`), the aliveness tests and the
  record/allocation logic (`ReallyBug`, `BugRecord.ReallyBugRecord`), and the thread pipeline
  of `manager_processing.py` (`ManagerProcessing`).
- **Indices** (`tools/`): path length and linear and angular velocity (`Kinematics`), the area,
  distance, speed, state and variation indices of `calculation_index.py`
  (`CalculationIndex`), the frame window selection (`FrameSet`) and the DeepSORT wrapper's box
  conversions (`DeepSort`).

Objects whose fields the Python code updates in place are Dafny classes whose methods are
proved against pure specification functions of the old state; everything that only computes is
a function with lemmas about it. Square roots and arc cosines are parameters (`sqrt`,
`acosDeg`), so every property holds whatever those functions return, unless a lemma's requires
says what it needs of them. Python's `int()` on floats is truncation toward zero
(`Common.Trunc`), and `ZeroDivisionError`, `KeyError` and `TypeError` paths become `None`
results or a `raised` flag rather than preconditions.

## Model

| member | source | states |
|---|---|---|
| Common.Trunc | small_protozoa/track.py:62 | `int()` of a float truncates toward zero: the result is the integer part, below or above the value by less than one depending on its sign |
| Common.ShiftAll | small_protozoa/track.py:73-77 | moving a trajectory keeps its length and moves every point by the translation, truncated, in place and in order |
| Common.TrimTrailingZeros | small_protozoa/track.py:94-95 | popping trailing 0 flags leaves a prefix that is empty or ends in a detection, and everything removed was 0 |
| Common.TrimKeepsOnes | small_protozoa/track.py:94-95 | trimming keeps the number of detections (`count(1)`) |
| Common.TrimEndsInDetection | small_protozoa/track.py:94-95 | a sequence with a detection is non-empty after trimming and ends in 1 |
| Common.Restrict | small_protozoa/bugs_filter.py:146-148 | the key order after removals holds exactly the old keys that survive |
| Common.RestrictDistinct | small_protozoa/bugs_filter.py:146-148 | removing keys keeps the key order free of duplicates |
| SportsType.InterArea | small_protozoa/sports_type.py:5 | the shared area is never negative, and is 0 when the boxes are apart in either direction |
| SportsType.IsSame | small_protozoa/sports_type.py:1-13 | the ratio is undefined (ZeroDivisionError) exactly when the union is 0; otherwise ratio × union = intersection |
| SportsType.InterWithin | small_protozoa/sports_type.py:5-9 | for ordered boxes the shared area is at most either box's area |
| SportsType.IsSameBounds | small_protozoa/sports_type.py:1-13 | for ordered boxes the overlap ratio lies in [0, 1] |
| SportsType.IsSameIdentical | small_protozoa/sports_type.py:1-13 | a box of positive area overlaps itself with ratio 1 |
| SportsType.IsSameIgnoresIds | small_protozoa/sports_type.py:2-3 | the track ids play no part, and the ratio is symmetric |
| FrameSet.SelectFrames | tools/frame_set.py:1-44 | an unknown method gives the empty list; a window keeps the manual start or end it was given; an automatic window is 20000 frames long; the name is returned unchanged |
| FrameSet.ManualWindows | tools/frame_set.py:18-34 | by hand, exactly the three options give a window: `detect` frames after the start, before the end, or start to end; the ordering check never changes the result |
| FrameSet.AutoWindow | tools/frame_set.py:36-41 | automatically, exactly the videos of 20000 to 30000 frames get a window; it lies in the video, is 20000 frames long and is centred to within one frame |
| Kinematics.StepDistances | tools/real_time_speed.py:15-22 | one distance per consecutive pair of points, each the distance between them |
| Kinematics.LinearVelocity | tools/real_time_speed.py:25-37 | the velocity times the number of points is the path length, and 0 for no points |
| Kinematics.CalAngle | tools/real_time_speed.py:40-56 | a zero-length side (ZeroDivisionError) gives a turning angle of 0 |
| Kinematics.CalAngleRule | tools/real_time_speed.py:40-56 | the three cases of `cal_angle`: a zero denominator `2ac` gives 0, a law-of-cosines value outside [-1, 1] (the ValueError of `acos`) gives 0, and any other gives 180 minus its arc cosine |
| Kinematics.Angles | tools/real_time_speed.py:65-66 | one turning angle per consecutive triple of points, each the angle at its middle point |
| Kinematics.Mean | tools/real_time_speed.py:68-71 | the mean times the count is the sum, and 0 for an empty list |
| Kinematics.AngularVelocityShort | tools/real_time_speed.py:59-72 | fewer than three points give an angular velocity of 0 |
| Kinematics.TotalDistanceNonNegative | tools/real_time_speed.py:15-22 | the path length is never negative when the square root is not |
| Kinematics.MeanBounds | tools/real_time_speed.py:68-71 | the mean of terms in [0, hi] lies in [0, hi] |
| Kinematics.CalAngleBounds | tools/real_time_speed.py:48-56 | one turning angle lies in [0, 180] when the arc cosine maps [-1, 1] into [0, 180] |
| Kinematics.AnglesBounds | tools/real_time_speed.py:65-66 | every turning angle of a trajectory lies in [0, 180] under the same condition |
| Kinematics.AngularVelocityBounds | tools/real_time_speed.py:59-72 | the angular velocity lies in [0, 180] under the same condition |
| Kinematics.LinearVelocityOfOnePoint | tools/real_time_speed.py:15-37 | a single point has no path length and no velocity |
| Kinematics.LinearVelocityExample | tools/real_time_speed.py:25-37 | (0,0) to (3,4) is 5 long over 2 points: velocity 2.5 |
| Kinematics.CollinearNoTurn | tools/real_time_speed.py:40-72 | three evenly spaced collinear points do not turn: angular velocity 0 |
| SmallTrack.SpanOf | small_protozoa/track.py:102-110 | the span is infinite exactly when at most one point precedes the last display point; otherwise it is not negative |
| SmallTrack.MaxY | small_protozoa/track.py:110 | `max` of the y values: an upper bound that is attained |
| SmallTrack.MinY | small_protozoa/track.py:110 | `min` of the y values: a lower bound that is attained |
| SmallTrack.Track.constructor | small_protozoa/track.py:12-30 | a new track has its id, its start frame and the initial state of its first detection, and satisfies the bookkeeping invariant |
| SmallTrack.Track.UpdateDisplayQueue | small_protozoa/track.py:66-77 | only the display trajectory changes, shifted in place by the translation when one is given |
| SmallTrack.Track.Update | small_protozoa/track.py:40-64 | the new state is the step function of the old state, the message and the translation |
| SmallTrack.Track.Dead | small_protozoa/track.py:87-100 | the track dies iff its countdown is at or below 0; a dead track is trimmed, a living one unchanged, and the invariant is kept |
| SmallTrack.Track.Detect | small_protozoa/track.py:143-160 | a track is real iff its angular velocity is positive and the tiered count/span rule holds; a real track has at least 3 detections |
| SmallTrack.Track.GetArea | small_protozoa/track.py:162-169 | the mean area times the number of areas is their sum |
| SmallTrack.InitialTrack | small_protozoa/track.py:19-30 | a new track has one detection, one point in every history, no misses and 100 frames to live |
| SmallTrack.StepBookkeeping | small_protozoa/track.py:48-64 | every update costs one frame of life and adds exactly one flag (1 iff matched) and one display point |
| SmallTrack.MatchedStep | small_protozoa/track.py:51-58 | a match resets the miss counter, moves the reference point to the detection, records the area and re-copies the trajectory |
| SmallTrack.MissedStep | small_protozoa/track.py:59-64 | a miss moves the reference point with the camera and counts only below the cap of 15; at the cap the point is frozen; the counter never passes 15 and the trajectory is untouched |
| SmallTrack.DisplayShift | small_protozoa/track.py:49-77 | without a translation the old display points stay; with one every old point moves by it, truncated |
| SmallTrack.StepPreservesValid | small_protozoa/track.py:40-64 | an update keeps the bookkeeping invariant |
| SmallTrack.ExpiredPreservesValid | small_protozoa/track.py:94-99 | an expired track ends in a detection, keeps all its detections and has both trajectories cut to the sequence's length |
| SmallTrack.TrimIdempotent | small_protozoa/track.py:94-95 | trimming twice is trimming once |
| SmallTrack.DisplayThreshold | small_protozoa/track.py:112-119 | a track is shown iff it has at least three detections |
| SmallTrack.TrimExample | small_protozoa/track.py:94-97 | [1, 1, 0, 0, 0] trims to [1, 1] |
| SmallTracker.TrackingDistance2 | small_protozoa/tracker.py:14-25 | the squared tracking distance from the moved reference point to the detection is never negative |
| SmallTracker.Near | small_protozoa/tracker.py:52-55 | every queue entry of a track names it, an existing message, the distance to that message, and is within 120 pixels |
| SmallTracker.NearComplete | small_protozoa/tracker.py:52-55 | every message within 120 pixels of the track is queued for it |
| SmallTracker.CandidatesIff | small_protozoa/tracker.py:48-55 | a (track, message) pair is queued iff the track is not missing and the message is within 120 pixels, with its distance |
| SmallTracker.InsertSorted | small_protozoa/tracker.py:56 | inserting into a queue sorted by distance keeps it sorted and adds exactly the new entry |
| SmallTracker.InsertPermutes | small_protozoa/tracker.py:56 | inserting adds exactly one entry to the multiset |
| SmallTracker.InsertStable | small_protozoa/tracker.py:56 | an inserted entry goes after every entry at its own distance |
| SmallTracker.SortSorted | small_protozoa/tracker.py:56 | the sorted queue is ordered by distance |
| SmallTracker.SortPermutes | small_protozoa/tracker.py:56 | the sorted queue is a permutation of the queue |
| SmallTracker.SortStable | small_protozoa/tracker.py:56 | the sort is stable (Python's sort is): entries at equal distance keep their queue order |
| SmallTracker.GreedySound | small_protozoa/tracker.py:62-71 | every pair taken was queued, and its track and message were still free |
| SmallTracker.GreedyDistinct | small_protozoa/tracker.py:62-71 | no track and no message is taken twice |
| SmallTracker.GreedyMaximal | small_protozoa/tracker.py:62-71 | every queued pair not taken lost its track or its message to a pair that was |
| SmallTracker.MatchOf | small_protozoa/tracker.py:62-71 | a track has a message exactly when it was matched |
| SmallTracker.TracksOf | small_protozoa/tracker.py:71 | the shown list has one track per matched pair, in matching order |
| SmallTracker.Indices | small_protozoa/tracker.py:58 | `set(range(n))` holds exactly 0..n-1 |
| SmallTracker.InOrderSpec | small_protozoa/tracker.py:79-84 | the new tracks are born from exactly the free message indices, each once, in ascending order |
| SmallTracker.NewIds | small_protozoa/tracker.py:81-82 | the k new tracks get ids counter+1, ..., counter+k |
| SmallTracker.ClearSplit | small_protozoa/tracker.py:27-34 | `clear()` splits the ids: the removed ones have run out of time, the kept ones have not, and together they are all of them |
| SmallTracker.AliveDistinct | small_protozoa/tracker.py:32 | the surviving ids keep their order and stay distinct |
| SmallTracker.ClearTwice | small_protozoa/tracker.py:27-34 | a second `clear()` removes nothing |
| SmallTracker.Shown | small_protozoa/tracker.py:87-95 | the shown copies are exactly the states of the listed tracks with more than two detections |
| SmallTracker.PlanStep | small_protozoa/tracker.py:66-70 | taking a pair updates only its track, from its state before the frame, with the pair's message |
| SmallTracker.PlannedValid | small_protozoa/tracker.py:62-76 | every planned track state keeps the bookkeeping invariant |
| SmallTracker.SortedQueueBounds | small_protozoa/tracker.py:48-56 | the sorted queue names only existing tracks and existing messages |
| SmallTracker.ClearWellFormed | small_protozoa/tracker.py:32 | dropping the expired tracks keeps the dictionary well formed, with the survivors in their old order |
| SmallTracker.BirthWellFormed | small_protozoa/tracker.py:81-84 | storing a new track under the next id keeps the dictionary well formed |
| SmallTracker.AddWellFormed | small_protozoa/tracker.py:79-84 | storing distinct new tracks under consecutive new ids keeps the dictionary well formed |
| SmallTracker.Ask | small_protozoa/tracker.py:32-33 | asking one track `dead()` answers iff its countdown ran out, and touches no other track |
| SmallTracker.NearMessages | small_protozoa/tracker.py:52-55 | the inner loop collects exactly the close messages of one track, in message order |
| SmallTracker.Tracker.constructor | small_protozoa/tracker.py:9-12 | a new tracker has counter 0, no tracks and an empty shown list |
| SmallTracker.Tracker.BuildQueue | small_protozoa/tracker.py:48-55 | the nested loops build exactly the specified queue |
| SmallTracker.Tracker.Take | small_protozoa/tracker.py:63-71 | a pair taken updates its track with its message, lists it as shown and makes both unavailable; other tracks are untouched |
| SmallTracker.Tracker.MatchQueue | small_protozoa/tracker.py:58-71 | the matching loop takes exactly the greedy matching of the sorted queue, lists the matched tracks in order and updates each with its message |
| SmallTracker.Tracker.MissUnmatched | small_protozoa/tracker.py:73-76 | every unmatched track takes a missed step with the translation; the matched ones keep their state |
| SmallTracker.Tracker.Miss | small_protozoa/tracker.py:75-76 | one unmatched track takes a missed step; the others are untouched |
| SmallTracker.Tracker.Birth | small_protozoa/tracker.py:81-84 | the counter moves on by one and a fresh track is stored under it, last in order |
| SmallTracker.Tracker.AddTracks | small_protozoa/tracker.py:78-84 | a fresh track, with consecutive new ids, for every free message in ascending order; old tracks stay |
| SmallTracker.Tracker.MatchFrame | small_protozoa/tracker.py:44-76 | the shown list is the matched tracks; every old track takes one step, with its matched message or as missed |
| SmallTracker.Tracker.Update | small_protozoa/tracker.py:36-84 | `update` matches nearest first, steps every old track once, and creates one track per unmatched message under consecutive new ids |
| SmallTracker.Tracker.ExpireAll | small_protozoa/tracker.py:32-33 | every track is asked `dead()` once in dictionary order; exactly the expired ones leave the dictionary, trimmed, and are listed in order |
| SmallTracker.Tracker.Clear | small_protozoa/tracker.py:27-34 | `clear()` removes and returns exactly the expired tracks, in dictionary order, trimmed; the survivors keep their order and state |
| SmallTracker.Tracker.DisplayTracks | small_protozoa/tracker.py:87-95 | the shown copies all have more than two detections, and every shown track with more than two detections is among them |
| BugsFilter.Relocated | small_protozoa/bugs_filter.py:44-57 | a box seen again takes the new corners, keeps its id and loses one frame of life |
| BugsFilter.Shifted | small_protozoa/bugs_filter.py:59-69 | a box not seen keeps its width and height, keeps its id and loses one frame of life |
| BugsFilter.ShiftedCovers | small_protozoa/bugs_filter.py:59-69 | a point moved with the camera is in the moved box iff the point was in the box |
| BugsFilter.OutputIds | small_protozoa/bugs_filter.py:108-115 | `bbox_id_set` holds exactly the ids of the outputs |
| BugsFilter.Drifted | small_protozoa/bugs_filter.py:117-121 | drifting keeps the set of boxes |
| BugsFilter.RegisterAllListing | small_protozoa/bugs_filter.py:109-115 | the dictionary order stays a duplicate-free listing of the keys: a new id is appended once |
| BugsFilter.RegisterAllKeys | small_protozoa/bugs_filter.py:109-115 | after the first loop the keys are the old keys and the ids of the outputs |
| BugsFilter.RegisterAllPrefix | small_protozoa/bugs_filter.py:109-115 | the first loop only appends to the dictionary order |
| BugsFilter.RegisterAllUntouched | small_protozoa/bugs_filter.py:109-115 | an id not among the outputs keeps its box, or stays absent |
| BugsFilter.RegisterAllLast | small_protozoa/bugs_filter.py:109-115 | an output id ends at the location of its last output; a new box starts with 80 frames and every later occurrence, like every occurrence of a known id, costs one |
| BugsFilter.UpdatedUnseen | small_protozoa/bugs_filter.py:99-121 | a box not seen drifts when a translation is given and is untouched otherwise |
| BugsFilter.UpdatedSeen | small_protozoa/bugs_filter.py:99-121 | a seen box never drifts: it stays where its last output put it |
| BugsFilter.BlockedIff | small_protozoa/bugs_filter.py:132-136 | a point is blocked iff some box, widened by 5 pixels, covers it |
| BugsFilter.PassingIff | small_protozoa/bugs_filter.py:123-158 | a candidate passes iff it is an input, in no box and not near the left or right edge |
| BugsFilter.PassingAppend | small_protozoa/bugs_filter.py:123-139 | filtering keeps the input order: two batches filter as their concatenation |
| BugsFilter.GoneIdsIff | small_protozoa/bugs_filter.py:141-148 | the ids `clear()` removes are exactly those whose box has no life left or has left the screen to the left or top |
| BugsFilter.ClearTwice | small_protozoa/bugs_filter.py:141-148 | a second `clear()` finds nothing to remove |
| BugsFilter.BBox.constructor | small_protozoa/bugs_filter.py:5-19 | a new box has the output's corners and id and 80 frames of life |
| BugsFilter.BBox.UpdateLocation | small_protozoa/bugs_filter.py:44-57 | the box becomes the relocated box |
| BugsFilter.BBox.UpdateTranslation | small_protozoa/bugs_filter.py:59-69 | the box becomes the shifted box |
| BugsFilter.BBoxFilter.constructor | small_protozoa/bugs_filter.py:77-81 | a new filter has a 1824 × 1216 screen and no boxes |
| BugsFilter.BBoxFilter.SetWidth | small_protozoa/bugs_filter.py:83-89 | the width becomes the given one |
| BugsFilter.BBoxFilter.SetHeight | small_protozoa/bugs_filter.py:91-97 | the height becomes the given one |
| BugsFilter.BBoxFilter.Locate | small_protozoa/bugs_filter.py:110-115 | one output registers a fresh box at the end of the order, or relocates the known one; no other box changes |
| BugsFilter.BBoxFilter.Drift | small_protozoa/bugs_filter.py:120-121 | one unseen box drifts; the others are untouched |
| BugsFilter.BBoxFilter.LocateAll | small_protozoa/bugs_filter.py:108-115 | the first loop leaves the boxes and the order as the registration of all outputs specifies; old boxes are kept, new ones are fresh |
| BugsFilter.BBoxFilter.DriftUnseen | small_protozoa/bugs_filter.py:118-121 | the second loop drifts exactly the boxes not seen |
| BugsFilter.BBoxFilter.UpdateBBox | small_protozoa/bugs_filter.py:99-121 | `update_bbox` leaves exactly the specified boxes and order, never replacing an old box object |
| BugsFilter.BBoxFilter.InBox | small_protozoa/bugs_filter.py:132-136 | the inner loop answers whether some box covers the point |
| BugsFilter.BBoxFilter.Filter | small_protozoa/bugs_filter.py:123-139 | `filter` returns exactly the passing candidates, in order |
| BugsFilter.BBoxFilter.ClearList | small_protozoa/bugs_filter.py:146 | the comprehension lists exactly the ids whose box is out of the screen, in order |
| BugsFilter.BBoxFilter.DeleteAll | small_protozoa/bugs_filter.py:147-148 | the `pop` loop removes exactly the listed ids and touches no other box |
| BugsFilter.BBoxFilter.Clear | small_protozoa/bugs_filter.py:141-148 | `clear()` removes exactly the boxes out of the screen, keeps the others and their order |
| DeepSort.XywhToTlwh | yolo_detect/DeepSORT/deep_sort/deep_sort.py:106-113 | each row keeps its size and moves from its centre to its top-left corner, half a size away |
| DeepSort.XywhToXyxy | yolo_detect/DeepSORT/deep_sort/deep_sort.py:115-121 | the corners lie in the frame and each is the truncated corner of the box unless that falls outside, when it is the frame's border |
| DeepSort.TlwhToXyxy | yolo_detect/DeepSORT/deep_sort/deep_sort.py:123-134 | the same for a box given by its top-left corner |
| DeepSort.XyxyToTlwh | yolo_detect/DeepSORT/deep_sort/deep_sort.py:136-143 | the top-left corner is the first corner and corner plus side reaches the second corner |
| DeepSort.CornersRoundTrip | yolo_detect/DeepSORT/deep_sort/deep_sort.py:123-143 | integer corners inside the frame come back unchanged from `tlwh` |
| DeepSort.CentreThroughTopLeft | yolo_detect/DeepSORT/deep_sort/deep_sort.py:106-134 | the centre-based conversion agrees with moving to the top-left corner and converting from there |
| LargeBug.Find | big_microfauna/abstract_bug.py:50-52 | the position of a label in the class dictionary, and None exactly when no entry carries it |
| LargeBug.CeilDiv | big_microfauna/abstract_bug.py:168 | `math.ceil(a / b)`: the least integer `c` with `a <= b * c` |
| LargeBug.CeilMean | big_microfauna/abstract_bug.py:162-169 | `_bug_number()` is defined iff the list is non-empty with no absent entry, and is then the ceiling of the mean |
| LargeBug.VotesUpdate | big_microfauna/abstract_bug.py:50-52 | changing one entry's count moves its label's votes and the total by the difference, and no other label's |
| LargeBug.VoteCounts | big_microfauna/abstract_bug.py:50-52 | a detection adds one vote to its label, none to any other, and keeps the labels distinct |
| LargeBug.Majority | big_microfauna/abstract_bug.py:97-104 | `cls()` is a label with the most votes, the first inserted among equals |
| LargeBug.FirstMax | big_microfauna/abstract_bug.py:103 | the index of the first entry whose count no entry exceeds |
| LargeBug.ScreenshotRule | big_microfauna/abstract_bug.py:61-68 | the screenshot is refreshed iff the bug has been detected at most 30 times |
| LargeBug.FirstUpdate | big_microfauna/abstract_bug.py:13-59 | a new record's first detection leaves it consistent with that detection's centre as its trajectory |
| LargeBug.FirstState | big_microfauna/abstract_bug.py:13-59 | the whole record after a first detection: one box, one vote, 199 frames of life |
| LargeBug.UpdatedBookkeeping | big_microfauna/abstract_bug.py:32-59 | every update costs a frame of life and adds one box, flag and blur value; votes, cluster counts and centres grow only on a detection, which also resets the trajectory to the shifted centres; a miss repeats the last box |
| LargeBug.UpdatedValid | big_microfauna/abstract_bug.py:32-59 | `update` keeps the lists consistent: as many boxes, blur values and flags, one cluster count, vote and centre per detection |
| LargeBug.ExpiredBookkeeping | big_microfauna/abstract_bug.py:84-93 | an expired record ends in a detection, keeps every detection, cuts boxes and blur values to its length and leaves the centres and trajectory whole |
| LargeBug.ClsTieExample | big_microfauna/abstract_bug.py:103 | votes Mo, Do, Do, Mo elect Mo, inserted first |
| LargeBug.AbstractBug.constructor | big_microfauna/abstract_bug.py:13-30 | a new record has its id and first frame, no data and 200 frames of life |
| LargeBug.AbstractBug.UpdateTranslation | big_microfauna/abstract_bug.py:151-160 | every centre is shifted and truncated when a translation is given; nothing else changes |
| LargeBug.AbstractBug.Update | big_microfauna/abstract_bug.py:32-59 | the record becomes the updated record |
| LargeBug.AbstractBug.UpdateScreenshot | big_microfauna/abstract_bug.py:70-76 | only the screenshot changes |
| LargeBug.AbstractBug.Alive | big_microfauna/abstract_bug.py:78-95 | alive iff life remains; an expired record becomes the expired record |
| BugManager.ClsToEnglishName | big_microfauna/abstract_bug_manager.py:9-23 | a code has a name iff it is 0 to 5, and the name's code is that code |
| BugManager.NamesRoundTrip | big_microfauna/abstract_bug_manager.py:9-23 | every label is named back from its own code |
| BugManager.Ids | big_microfauna/abstract_bug_manager.py:77-86 | the id list has one entry per output: that output's id |
| BugManager.FirstIndex | big_microfauna/abstract_bug_manager.py:46-47 | `track_ids.index(id)`: defined iff the id occurs, and then its first position |
| BugManager.AddIdsSpec | big_microfauna/abstract_bug_manager.py:40-42 | after the first loop the dictionary order keeps the old ids first, then lists every new output id once |
| BugManager.VisitValid | big_microfauna/abstract_bug_manager.py:45-56 | one visit keeps a consistent record consistent, and makes a just-created record of an output id consistent |
| BugManager.VisitDetected | big_microfauna/abstract_bug_manager.py:46-54 | a detected record takes the box and class of the first output with its id, refreshes its screenshot only when due, and, by the positional call, files the cluster count as a blur value and the blur flag as a cluster count |
| BugManager.VisitMissed | big_microfauna/abstract_bug_manager.py:55-56 | a record whose id is not among the outputs is updated as a miss and keeps its screenshot |
| BugManager.BugNumberOfFlags | big_microfauna/abstract_bug_manager.py:53 | because of that positional call, `_bug_number()` of a managed record is 0 or 1 whatever the cluster counts were |
| BugManager.AdmittedValid | big_microfauna/abstract_bug_manager.py:40-42 | after the first loop every record is consistent or new and among the outputs, so every visit is defined |
| BugManager.VisitsValid | big_microfauna/abstract_bug_manager.py:45-56 | visiting every record keeps all of them consistent |
| BugManager.Ask | big_microfauna/abstract_bug_manager.py:65 | asking one record `alive()` answers whether it has life left, expires it if not, and touches no other record |
| BugManager.AdmitIds | big_microfauna/abstract_bug_manager.py:40-42 | the first loop keeps every old record and appends a fresh record for each new output id, in output order |
| BugManager.ExpireAll | big_microfauna/abstract_bug_manager.py:63-67 | the loop of `clear()` keeps exactly the records with life left, in order, returns the others in order, and expires each of those |
| BugManager.VisitRecord | big_microfauna/abstract_bug_manager.py:45-56 | one pass of the second loop brings the record to its visited state and says whether it is shown |
| BugManager.AbstractBugManager.constructor | big_microfauna/abstract_bug_manager.py:11-13 | a new manager has no records and shows nothing |
| BugManager.AbstractBugManager.AdmitAll | big_microfauna/abstract_bug_manager.py:39-42 | the first loop of `update` on the manager: old records kept, a fresh record per new id |
| BugManager.AbstractBugManager.VisitOne | big_microfauna/abstract_bug_manager.py:45-56 | the record of one id reaches its visited state; no other record changes |
| BugManager.AbstractBugManager.VisitAll | big_microfauna/abstract_bug_manager.py:44-56 | every record visited once, and exactly the records with an output id returned, in dictionary order |
| BugManager.AbstractBugManager.Refresh | big_microfauna/abstract_bug_manager.py:37-56 | the display list is exactly the records whose id was among the outputs, in dictionary order, and every record is in its visited state |
| BugManager.AbstractBugManager.Update | big_microfauna/abstract_bug_manager.py:25-56 | `update` creates a record per new id, never replaces an old one, visits each record once, shows exactly the detected ones in dictionary order and keeps every record consistent |
| BugManager.AbstractBugManager.ClearFrom | big_microfauna/abstract_bug_manager.py:58-67 | `clear()` on records in known states removes and returns exactly the expired ones |
| BugManager.AbstractBugManager.Clear | big_microfauna/abstract_bug_manager.py:58-67 | `clear()` removes and returns exactly the records with no life left, in dictionary order, cut to their last detection; the survivors are unchanged and keep their order |
| BugManager.AbstractBugManager.DisplayTracks | big_microfauna/abstract_bug_manager.py:69-75 | `display_tracks()` returns the states of the shown records, in order |
| ReallyBug.FlagsAt | big_microfauna/really_bug.py:48-53 | the chunk flags from a frame on are empty exactly when that frame is past the end |
| ReallyBug.Flags | big_microfauna/really_bug.py:48-53 | a sequence has chunk flags iff it is non-empty |
| ReallyBug.CountTrue | big_microfauna/really_bug.py:55 | the sum of a list of booleans counts at most its length |
| ReallyBug.QueueStep | big_microfauna/really_bug.py:54-59 | after a push the queue is the last window when full, and otherwise again the flags since the last drop, never `k` of them |
| ReallyBug.ScanStep | big_microfauna/really_bug.py:48-53 | scanning the chunk at a frame moves its flag from the unscanned flags to the scanned ones |
| ReallyBug.ExistDetect | big_microfauna/really_bug.py:36-60 | `exist_detect` is true iff some run of `interval_num` consecutive chunk flags has at least `interval_threshold` trues |
| ReallyBug.Push | big_microfauna/really_bug.py:50-59 | one flag into the queue: a full dense window stops the scan; otherwise the queue again holds the flags since the last drop, fewer than `k`, and no window so far is dense |
| ReallyBug.ThresholdsOf | big_microfauna/really_bug.py:12-33 | a class the configuration does not mention keeps the default thresholds 10, 5, 6, 3 |
| ReallyBug.Detect | big_microfauna/really_bug.py:82-91 | a class's `detect` answers as `exist_detect` with that class's thresholds |
| ReallyBug.FlagsChunk | big_microfauna/really_bug.py:48-53 | flag `j` tests whether the chunk starting `j` chunks later holds at least `frame_threshold` detections, the last chunk being cut at the end |
| ReallyBug.FlagsLength | big_microfauna/really_bug.py:48 | there are `ceil(len / interval_frame_number)` chunks |
| ReallyBug.ShortRejected | big_microfauna/really_bug.py:36-60 | a sequence of at most `interval_frame_number * (interval_num - 1)` frames is never accepted |
| ReallyBug.DefaultsRejectShort | big_microfauna/really_bug.py:36-67 | with the default thresholds, sequences of 40 frames or fewer are rejected |
| ReallyBug.DenseMonotone | big_microfauna/really_bug.py:56 | lowering `interval_threshold` never rejects an accepted sequence |
| BugRecord.NameListed | big_microfauna/really_bug_record.py:7 | every record name is one of the seven of `BUG_NAMES` |
| BugRecord.ClsOf | big_microfauna/really_bug_record.py:43-44 | a large record's class is its majority label, and None when it has no votes |
| BugRecord.Bump | big_microfauna/really_bug_record.py:61 | one more record under one aliveness; the other tally is unchanged |
| BugRecord.FileLarge | big_microfauna/really_bug_record.py:57-70 | filing a passing large record keeps the record state well formed |
| BugRecord.AllocateOne | big_microfauna/really_bug_record.py:42-75 | one pass of the loop keeps the state well formed, and only a large record can raise |
| BugRecord.Allocated | big_microfauna/really_bug_record.py:36-75 | the loop over all items keeps the state well formed |
| BugRecord.OneBookkeeping | big_microfauna/really_bug_record.py:42-75 | one pass takes nothing back, and when it does not raise every counter rises exactly as much as its report list |
| BugRecord.NameStep | big_microfauna/really_bug_record.py:47-49 | counting and reporting under a name raises that name's counter and list by one and no other |
| BugRecord.LargeGrows | big_microfauna/really_bug_record.py:54-70 | a passing large record of a class that builds takes nothing back |
| BugRecord.GsInStep | big_microfauna/really_bug_record.py:58-63 | a Gs record raises its counter, its report list and the area list by one each |
| BugRecord.TallyInStep | big_microfauna/really_bug_record.py:60-63 | a Mo, Do or Ar record raises its counter, report list and live/die tally by one each |
| BugRecord.AllocatedBookkeeping | big_microfauna/really_bug_record.py:36-75 | over a whole call nothing is taken back, and without an exception every counter rose exactly as much as its report list, and so did the Gs areas, the Ar colour paths and the live/die tallies |
| BugRecord.StopsAtRaise | big_microfauna/really_bug_record.py:42-75 | once an item raises, the items after it change nothing |
| BugRecord.SmallRule | big_microfauna/really_bug_record.py:45-51 | a small track never raises, and is counted and reported iff its own `detect()` holds |
| BugRecord.LargeRejected | big_microfauna/really_bug_record.py:43-54 | a large record whose class cannot be named raises with nothing changed; one that fails its class's `detect` changes nothing |
| BugRecord.LargeCounted | big_microfauna/really_bug_record.py:54-57 | a passing large record is counted under its class before it is built; Ne, Eu and a failing build then raise with nothing filed |
| BugRecord.LargeFiled | big_microfauna/really_bug_record.py:57-70 | a passing record that builds files its report; Gs adds its area and no tally, the others one tally under their aliveness; only Ar adds a colour path |
| BugRecord.FreshDeadOrLive | big_microfauna/really_bug_record.py:77-83 | the live/die dictionary handed in holds a zero tally for every class but Gs |
| BugRecord.FreshRecords | big_microfauna/really_bug_record.py:85-91 | the record dictionary handed in holds an empty list for every name |
| BugRecord.SetUpWellFormed | big_microfauna/really_bug_record.py:77-107 | zero counters with the containers handed in form a well-formed start |
| BugRecord.ReallyBugRecord.constructor | big_microfauna/really_bug_record.py:9-34 | every name counted 0; the containers not yet set |
| BugRecord.ReallyBugRecord.SetDeadOrLive | big_microfauna/really_bug_record.py:77-83 | the live/die dictionary becomes the given one |
| BugRecord.ReallyBugRecord.SetRecords | big_microfauna/really_bug_record.py:85-91 | the record dictionary becomes the given one |
| BugRecord.ReallyBugRecord.SetGsAreas | big_microfauna/really_bug_record.py:93-99 | the Gs area list becomes the given one |
| BugRecord.ReallyBugRecord.SetArColors | big_microfauna/really_bug_record.py:101-107 | the Ar colour list becomes the given one |
| BugRecord.ReallyBugRecord.File | big_microfauna/really_bug_record.py:57-70 | the record state becomes the filed state |
| BugRecord.ReallyBugRecord.AllocateLarge | big_microfauna/really_bug_record.py:52-75 | one pass on a large record ends in the state and exception `AllocateOne` specifies |
| BugRecord.ReallyBugRecord.Allocate | big_microfauna/really_bug_record.py:42-75 | one pass ends in the state and exception `AllocateOne` specifies |
| BugRecord.ReallyBugRecord.Allocation | big_microfauna/really_bug_record.py:36-75 | `allocation` ends in the state and exception `Allocated` specifies |
| ManagerProcessing.MergeStep | manager_processing.py:43-70 | a step that dispatches consumes at least one result; one that does not leaves both lists alone |
| ManagerProcessing.NothingUnlessBoth | manager_processing.py:43 | nothing is consumed and nothing runs iff a list is empty |
| ManagerProcessing.PopRule | manager_processing.py:45-60 | the head with the strictly smaller frame index is popped and the other list kept; on a tie both heads are popped; some side always runs |
| ManagerProcessing.DispatchRule | manager_processing.py:62-70 | the large side runs on the YOLO head iff its index is not larger; the small side runs on the difference head's clear list iff its index is not larger |
| ManagerProcessing.TranslationRule | manager_processing.py:46-64 | the large manager gets a translation only on a tie, and then also the difference result's `blurry` in place of its own |
| ManagerProcessing.Drained | manager_processing.py:40-87 | stepping ends with one list empty |
| ManagerProcessing.LeftoverIsSuffix | manager_processing.py:40-87 | what is left over is the untouched end of its list |
| ManagerProcessing.DrainExample | manager_processing.py:40-87 | YOLO frames 1 to 5 against difference frames 1 to 4: four steps, and frame 5 is never processed |
| ManagerProcessing.Merger.constructor | manager_processing.py:26-27 | both result lists start empty |
| ManagerProcessing.Merger.Receive | manager_processing.py:95-105 | delivered results are appended to their lists |
| ManagerProcessing.Merger.Step | manager_processing.py:43-70 | one pass leaves the lists and the dispatch `MergeStep` specifies |
| ManagerProcessing.Merger.Drain | manager_processing.py:40-87 | the loop after the workers finish leaves the steps and leftovers `Drained` specifies |
| CalculationIndex.AverageArea | tools/calculation_index.py:31-49 | the mean box area: times the number of boxes it is the total area; 0 for no boxes |
| CalculationIndex.AverageAreaUniform | tools/calculation_index.py:31-49 | boxes all of one area have that mean area |
| CalculationIndex.Filtered | tools/calculation_index.py:136-160 | a distance below 2 becomes 0 and any other is kept, so the result is 0 or at least 2 |
| CalculationIndex.CalDistance | tools/calculation_index.py:136-160 | `cal_distance` is the distance between the predicted and the actual centre when that is at least 2, and 0 when it is below 2 |
| CalculationIndex.CalDistanceSizeOnly | tools/calculation_index.py:136-160 | the value depends only on the change of the box's width and height, not on where the boxes are |
| CalculationIndex.MovedBoxNoDistance | tools/calculation_index.py:136-160 | a box that moved without changing size gives distance 0 |
| CalculationIndex.SpeedList | tools/calculation_index.py:162-183 | one speed per distance: for the first five the sum of the earlier distances over `index + 1`, then the mean of the last five |
| CalculationIndex.FirstSpeedZero | tools/calculation_index.py:177-181 | the first speed is always 0 |
| CalculationIndex.DistStep | tools/calculation_index.py:215-239 | one frame of `cal_distance_list`: a detection records its box, a miss keeps the last one, and every value stays 0 or at least 2 |
| CalculationIndex.DistRun | tools/calculation_index.py:215-239 | the list built so far has entries 0 or at least 2 and at most one per frame |
| CalculationIndex.DistRunDefined | tools/calculation_index.py:215-239 | a record whose first frame is a detection never makes `cal_distance_list` raise |
| CalculationIndex.AllDetectedNoDistances | tools/calculation_index.py:215-239 | with every frame detected, `cal_distance_list` stays empty |
| CalculationIndex.DistRunStaysNone | tools/calculation_index.py:215-239 | once `cal_distance_list` raised, later frames do not undo it |
| CalculationIndex.CalDistanceList | tools/calculation_index.py:215-239 | the loop yields the specified list, with values 0 or at least 2 and at most one per frame |
| CalculationIndex.Dist1Step | tools/calculation_index.py:186-211 | one frame of `cal_distance_list1` keeps the previous box recorded when the run is on, its values 0 or at least 2 and its run count within 0 to 2 |
| CalculationIndex.Dist1Run | tools/calculation_index.py:186-211 | the same over the first frames |
| CalculationIndex.DistanceList1 | tools/calculation_index.py:186-211 | every value of `cal_distance_list1` is 0 or at least 2 |
| CalculationIndex.AllDetectedDistances1 | tools/calculation_index.py:186-211 | with every frame detected the first two frames give nothing and every later frame one distance |
| CalculationIndex.Distances1Bound | tools/calculation_index.py:186-211 | each frame adds at most one value |
| CalculationIndex.CalDistanceList1 | tools/calculation_index.py:186-211 | the loop yields the specified list |
| CalculationIndex.CountAbove | tools/calculation_index.py:262-274 | the count of values above a threshold is at most the length |
| CalculationIndex.DeadAlive | tools/calculation_index.py:262-274 | `dead_alive` is 'live' iff more than 3 distances of `cal_distance_list1` exceed 2 |
| CalculationIndex.MaxOf | tools/calculation_index.py:249 | Python's `max`: an element no element exceeds |
| CalculationIndex.DeadAlive1 | tools/calculation_index.py:244-259 | `dead_alive1` raises iff `cal_distance_list` does, and an empty distance list gives 'die' |
| CalculationIndex.DeadAlive1AllDetected | tools/calculation_index.py:244-259 | a record detected in every frame is judged dead by `dead_alive1` |
| CalculationIndex.Classify | tools/calculation_index.py:277-325 | 'contraction' iff the loss is negative, 'extend' iff it exceeds the threshold, 'static' otherwise |
| CalculationIndex.AreaIou | tools/calculation_index.py:277-325 | two boxes of equal width and height are 'static' |
| CalculationIndex.ShrinkOrGrowReadsAsExtend | tools/calculation_index.py:277-325 | a box that shrinks in both directions reads as 'extend', as does one that grows in both |
| CalculationIndex.StateStep | tools/calculation_index.py:328-353 | one frame of `cal_state_list` adds at most one state, never 'static', and only after a box is recorded |
| CalculationIndex.StateRun | tools/calculation_index.py:328-353 | the states so far are never 'static' |
| CalculationIndex.StateList | tools/calculation_index.py:328-353 | `cal_state_list` holds no 'static' entry |
| CalculationIndex.StatesFewerThanFrames | tools/calculation_index.py:328-353 | fewer states than frames, and none before the first detection |
| CalculationIndex.CalStateList | tools/calculation_index.py:328-353 | the loop yields the specified list |
| CalculationIndex.V2Step | tools/calculation_index.py:390-409 | one index of `v2_area` keeps the frame count and the rates non-negative and adds at most one rate |
| CalculationIndex.V2Run | tools/calculation_index.py:379-410 | the rates so far are non-negative |
| CalculationIndex.V2Area | tools/calculation_index.py:379-410 | every rate of `v2_area` is non-negative |
| CalculationIndex.V2CountsChanges | tools/calculation_index.py:379-410 | every rate took two state changes, and an armed flag counts one more |
| CalculationIndex.VariationLoop | tools/calculation_index.py:400-402 | the inner loop sums the absolute differences of consecutive areas |
| CalculationIndex.V2AreaLoop | tools/calculation_index.py:379-410 | the loop yields the specified rates |
| CalculationIndex.V2Of | tools/calculation_index.py:372-375 | the mean of the rates over two, and 0 for no rates |
| CalculationIndex.V2OfNonNegative | tools/calculation_index.py:372-375 | non-negative rates give a non-negative `v2` |
| CalculationIndex.CalV2 | tools/calculation_index.py:356-376 | `cal_v2` with method 'area' is the halved mean rate of the state list, and never negative |
| SmallDetect.Widen | small_protozoa/small_protozoa_detect.py:69-72 | the widened bounds enclose the merged box and everything the old bounds enclosed |
| SmallDetect.SweepFrom | small_protozoa/small_protozoa_detect.py:61-76 | the inner loop keeps at most the boxes it was given |
| SmallDetect.SweepKeepsBoxes | small_protozoa/small_protozoa_detect.py:61-76 | a round loses no box and invents none: each is merged or kept |
| SmallDetect.SweepCoherent | small_protozoa/small_protozoa_detect.py:61-76 | a round keeps its group coherent: its bounds enclose its members and only boxes near the seed join |
| SmallDetect.Groups | small_protozoa/small_protozoa_detect.py:55-80 | `cluster` makes at most one group per box, and none exactly for no boxes |
| SmallDetect.Hulls | small_protozoa/small_protozoa_detect.py:78 | one result box per group |
| SmallDetect.GroupsPartition | small_protozoa/small_protozoa_detect.py:48-80 | every input box goes into exactly one result box |
| SmallDetect.GroupsCoherent | small_protozoa/small_protozoa_detect.py:48-80 | every result box encloses its members, each of which was near its seed |
| SmallDetect.EveryBoxCovered | small_protozoa/small_protozoa_detect.py:48-80 | every input box lies inside some result box |
| SmallDetect.Gather | small_protozoa/small_protozoa_detect.py:57-76 | one round widens the seed's bounds and keeps the rest as the round specifies |
| SmallDetect.RoundHulls | small_protozoa/small_protozoa_detect.py:56-78 | each round appends its box ahead of the boxes of the later rounds |
| SmallDetect.Cluster | small_protozoa/small_protozoa_detect.py:48-80 | `cluster` returns the bounds of the groups, in round order |
| SmallDetect.ClusterNotTransitive | small_protozoa/small_protozoa_detect.py:65-74 | boxes A, B, C with B near A and C near B only: C starts its own group, since `all_points` only ever holds the seed |
| SmallDetect.FirstRoundOfExample | small_protozoa/small_protozoa_detect.py:56-77 | the seed A takes B and leaves C |
| SmallDetect.FilterScreenNoisy | small_protozoa/small_protozoa_detect.py:30-46 | a centre is noise iff it lies within the radius of some entry of `NOISY_LIST` |
| SmallDetect.NoisyExamples | small_protozoa/small_protozoa_detect.py:11 | the first noise centre is noisy; the screen's corner is not |
| SmallDetect.DetectPlan | small_protozoa/small_protozoa_detect.py:133-184 | a frame is tracked iff there is a previous frame, it is not blurry and the translation succeeded; otherwise no translation is reported and the filter never drifts |
| SmallDetect.Plans | small_protozoa/small_protozoa_detect.py:133-184 | one plan per call |
| SmallDetect.SizeTakenOnce | small_protozoa/small_protozoa_detect.py:144-150 | the screen size is set exactly on the first call of a fresh detector |
| SmallDetect.FrameDifferDetector.constructor | small_protozoa/small_protozoa_detect.py:13-17 | a fresh detector has no previous frame |
| SmallDetect.FrameDifferDetector.Detect | small_protozoa/small_protozoa_detect.py:133-184 | every path keeps the frame as the previous one and follows the plan |
| FrameDiffer.InsideOne | small_protozoa/bigprotozoa_framediffer.py:194-217 | one output of `inside` gives its id a record and adds no other key |
| FrameDiffer.InsideOneSound | small_protozoa/bigprotozoa_framediffer.py:194-217 | one output keeps every class key and registers only ids that have a record |
| FrameDiffer.InsideOneRule | small_protozoa/bigprotozoa_framediffer.py:194-217 | the id's activity rises by exactly 1 and the area is kept iff the point lies in the box widened by 5; a new id starts from 0 and no areas; other records stay; the id is registered under a class iff its code names it |
| FrameDiffer.InsideRunRecords | small_protozoa/bigprotozoa_framediffer.py:194-217 | after some outputs every earlier record is still there and each of those outputs has one |
| FrameDiffer.InsideRunOnlyOutputs | small_protozoa/bigprotozoa_framediffer.py:194-217 | the only new records are those of the outputs' ids |
| FrameDiffer.InsideRunSound | small_protozoa/bigprotozoa_framediffer.py:177-218 | `inside` keeps the class keys and registers only ids with a record |
| FrameDiffer.InsideAllSound | small_protozoa/bigprotozoa_framediffer.py:72-77 | the messages loop keeps the same |
| FrameDiffer.InsideRecordsEveryOutput | small_protozoa/bigprotozoa_framediffer.py:194-201 | every output paired with a class code has a record after `inside`, wherever the point is |
| FrameDiffer.Gain | small_protozoa/bigprotozoa_framediffer.py:271-283 | a rate above 0.1 adds `rate * 50` below 0.5 and 25 from 0.5 on: more than 5 and at most 25 |
| FrameDiffer.Row | small_protozoa/bigprotozoa_framediffer.py:257 | the current output paired with every previous output, in order |
| FrameDiffer.Pairs | small_protozoa/bigprotozoa_framediffer.py:256-257 | one pair per previous and current output |
| FrameDiffer.Walk | small_protozoa/bigprotozoa_framediffer.py:256-257 | a walk over the pairs never removes a record |
| FrameDiffer.RaisedStays | small_protozoa/bigprotozoa_framediffer.py:256-257 | once a walk has raised, later pairs are never visited |
| FrameDiffer.RateStepRule | small_protozoa/bigprotozoa_framediffer.py:258-283 | one pair of `area_rate` raises iff it is considered and the current box has area 0; otherwise only the current id changes and keeps its areas; it gains a record iff the pair is considered with a rate above 0.1, and its total then rises by exactly `Gain(rate)` iff the id is registered under Mo or Do, and stays otherwise |
| FrameDiffer.SameStepRule | small_protozoa/bigprotozoa_framediffer.py:228-247 | one pair of `is_same` raises iff the union is empty, or the overlap is below 0.8 and the current id has no record; otherwise the current id gains exactly 10 when the overlap is below 0.8 and nothing otherwise, and no other record changes |
| FrameDiffer.SameIgnoresPreviousId | small_protozoa/bigprotozoa_framediffer.py:230 | the previous output's id plays no part in `is_same` |
| FrameDiffer.RateWalkBound | small_protozoa/bigprotozoa_framediffer.py:250-283 | over a walk of `area_rate` that does not raise no total falls, and each rises by at most 25 per pair |
| FrameDiffer.WalkKeepsSound | small_protozoa/bigprotozoa_framediffer.py:250-283 | the walks only add records, so every registered id keeps one |
| FrameDiffer.BpFrame.constructor | small_protozoa/bigprotozoa_framediffer.py:22-46 | no records, the six class keys with nothing registered, no outputs |
| FrameDiffer.BpFrame.Inside | small_protozoa/bigprotozoa_framediffer.py:177-218 | the tally becomes the one `inside` specifies |
| FrameDiffer.BpFrame.InsideOutput | small_protozoa/bigprotozoa_framediffer.py:195-217 | the tally becomes the one for one output |
| FrameDiffer.BpFrame.RatePair | small_protozoa/bigprotozoa_framediffer.py:258-283 | the records and exception become those of one `area_rate` pair |
| FrameDiffer.BpFrame.SamePair | small_protozoa/bigprotozoa_framediffer.py:228-247 | the records and exception become those of one `is_same` pair |
| FrameDiffer.BpFrame.VisitPair | small_protozoa/bigprotozoa_framediffer.py:226-283 | one pair by the rule of the pass |
| FrameDiffer.BpFrame.VisitRow | small_protozoa/bigprotozoa_framediffer.py:257-283 | the inner loop extends the walk by one row |
| FrameDiffer.BpFrame.Compare | small_protozoa/bigprotozoa_framediffer.py:256-283 | the nested loops end as the walk over all pairs, stopped at the first exception |
| FrameDiffer.BpFrame.AreaRate | small_protozoa/bigprotozoa_framediffer.py:250-283 | `area_rate` ends as its walk specifies |
| FrameDiffer.BpFrame.IsSame | small_protozoa/bigprotozoa_framediffer.py:220-248 | `is_same` ends as its walk specifies |
| FrameDiffer.BpFrame.BpFrameDiffer | small_protozoa/bigprotozoa_framediffer.py:48-99 | every message is checked against every output, the current outputs become the previous ones, and the area rates of the two frames are counted; the class keys stay sound |

## Code facts the model keeps

- `center_point_list` of a large organism grows only on detections
  (big_microfauna/abstract_bug.py:47-59). It is therefore not parallel to
  `detection_sequence`, and `alive()` cuts only the lists that are
  (`LargeBug.ExpiredBookkeeping`).
- The manager calls `bug.update(bbox, cls, bug_nums, blurry, translation)` against the
  signature `update(bbox, cls, blurry, bug_nums, translation)`, so the two values trade
  places (`BugManager.VisitDetected`, `BugManager.BugNumberOfFlags`).
- The merge loop of `manager_processing.py` stops once either list is empty and the workers
  are done. Whatever is left in the other list is never processed
  (`ManagerProcessing.DrainExample`).
- `is_same` compares `track_id1` with itself, so it pairs every output with every other
  (`FrameDiffer.SameIgnoresPreviousId`). It is never called.
- `area_iou` takes the area change without its sign in its first two branches, so a box that
  shrinks in both directions reads as 'extend'. Its `x22 == x12 and y22 == y12` branch and its
  final `raise` can never be reached (`CalculationIndex.ShrinkOrGrowReadsAsExtend`,
  `CalculationIndex.AreaIou`).
- `cal_distance` compares a predicted centre with the actual one, and the two differ by half
  the change of the box size. The distance therefore depends on the sizes alone
  (`CalculationIndex.CalDistanceSizeOnly`).
- `cluster` compares each box only with the seed of its round, because `all_points` is never
  extended. Merging is therefore not transitive (`SmallDetect.ClusterNotTransitive`).

## Left out

- Image processing and models: YOLO, DeepSORT's `update` and feature extractor, DBSCAN
  clustering, `frame_differ`, `calc_translation` (ORB/FLANN), the blur detectors, `cal_ar_color`,
  `cal_ar_flaw`, `cal_do_flaw` and `Bp_frame.blur_record`. Translations, cluster counts, blur
  flags and frame sizes enter the model as inputs, and a failed translation is None.
- Drawing, video and report output: `Track.draw`, `draw_messages`, the screenshot, colour and
  flaw writers, `SaveText`, `DrawSpeedAndDistance`, the JSON dumps of `bp_frame_differ`,
  `Bp_frame.search_path`, the Excel, PDF and CSV writers and the path manager. In `allocation`
  every writer call is a no-op. An Ar record's colour path is an input of its species outcome.
- Processes, queues and locks: `ManagerProcessing._get_data` is modelled as appending whatever
  the queues deliver (`Merger.Receive`). The `try`/`except` that swallows any exception in
  `start` is left out, and so are `video_queue`, the drawing step of the loop and the
  `manager_sign` flag. The main program and the other worker processes are not part of this
  model.
- `init_config` reads a JSON file; the model takes the parsed configuration as a map from
  class to thresholds (`ReallyBug.ThresholdsOf`).
- `ReallyBug.Detect`, `BugRecord.AllocateOne` and the members that use them require every
  configured chunk length to be positive: Python's `range` raises on a step of 0, and that
  error path is not modelled.
- The species constructors `Ar` … `Gs` and `SmallProtozoa`: their image routines are not
  modelled. Each passing record comes with the outcome of its constructor (its report, area,
  aliveness and colour path, or None when it raised). The Ne and Eu classes, whose
  constructors call the broken `dead_or_alive`, always raise. `message()` is part of that
  outcome. `dead_or_alive` itself is not modelled.
- `AbstractBug.linear_velocity`, `angular_velocity`, `speed_and_distance_data` and `transfer`,
  and `Track.transfer` and `Track.speed_and_distance_data`: these are report accessors. The
  velocities they call are modelled in `Kinematics`.
- `deepcopy` is the identity; `display_tracks()` returns the states of the shown records.
- Square roots and arc cosines are parameters (`sqrt`, `acosDeg`). `round(x, 2)` is folded
  into `acosDeg` for `cal_angle` and is left out of the indices of `calculation_index.py`.
  Floating-point rounding is not modelled: coordinates are exact reals.
- `SmallTrack.Track.Update` requires a translation on a miss while the missing counter is below
  15, because the source indexes `translation[0]` there. The tracker always passes one.
- `cal_v2` with a method other than 'area' only raises; only 'area' is modelled.
- `v2_area` skips entries whose box is None. The boxes of a record are never None, so that
  branch is not modelled.
- `bp_frame_differ`'s branch for an empty message (`x, y = -1, -1`) is not modelled: the
  detector's messages are never empty tuples, and on the first message that branch would read
  an unbound `small_area`.
- `cluster` also empties the caller's list. The only caller passes a list it no longer uses,
  so this is not modelled.
- `SmallDetect.FrameDifferDetector.Detect` returns what the call does (a `Plan`): the filter
  call, whether the tracker runs, and the translation returned. It does not run the box filter
  and the tracker itself; those are modelled and proved in `BugsFilter` and `SmallTracker`.
- `frame_set`'s `except` branch cannot be reached, because nothing in its `try` raises. Its
  ordering check only prints, so neither is modelled.
- `SportsType.IsSame` returns None where Python divides by a zero union (ZeroDivisionError).
  `FrameDiffer.SameStepRule` and `FrameDiffer.RateStepRule` treat a zero union, a zero current
  area and the `KeyError` of `is_same` on an unknown id as a raised pass, which ends the walk.
- `Bp_frame.cls1`, `blur`, `file_path`, `blur_path` and `frame_index` are only used by the
  left-out blur and file code. `FrameDiffer.BpFrame` keeps `record`, `cls` and the two output
  lists.
- `LargeBug.AbstractBug.firstFrame` and `SmallTrack.Track.startFrame` keep the bare frame index.
  The source turns it into the label string `'<frame>(id: <track_id>)'`
  (big_microfauna/abstract_bug.py:21, small_protozoa/track.py:21). Only the report writers,
  which are not modelled, read that label.
- Tensors: outputs are sequences of records, and `.tolist()` and `int(other.cls)` are the
  identity on them.
