/**
 * The small-organism tracker (small_protozoa/tracker.py): greedy nearest-first matching of
 * the tracks to the detections of one frame, miss updates for the tracks left over, new tracks
 * for the detections left over, expiry of old tracks, and the list of tracks shown this frame.
 *
 * Each step of `Tracker.Update` is a method whose contract ties the new state to a function
 * of the old one: `Candidates` is the queue, `SortByDistance` its stable sort, `Greedy` the
 * pop-from-the-front matching, `InOrder` the order in which new tracks are born. The lemmas
 * below them state what the matching guarantees.
 */
module SmallTracker {
  import opened Common
  import opened SmallTrack

  /** Largest distance (pixels) between a track's predicted point and a detection it may take. */
  const TRACKING_DISTANCE_THRESHOLD: real := 120.0

  /** One queue entry (track_id, message_index, distance); the distance is kept squared. */
  datatype Candidate = Candidate(trackId: int, messageIndex: int, d2: real)

  /**
   * `tracking_distance`, squared: from the track's reference point moved by the translation to
   * the detection. Comparing squares against the squared threshold, and sorting by squares,
   * orders the queue as the square roots do.
   */
  function TrackingDistance2(base: Point, m: Message, t: Vec): (d2: real)
    ensures d2 >= 0.0
  {
    var dx := base.x + t.dx - m.x as real;
    var dy := base.y + t.dy - m.y as real;
    dx * dx + dy * dy
  }

  predicate WithinThreshold(d2: real)
  {
    d2 <= TRACKING_DISTANCE_THRESHOLD * TRACKING_DISTANCE_THRESHOLD
  }

  /** The queue entries of one track against the messages, in message order. */
  function Near(id: int, base: Point, messages: seq<Message>, t: Vec): (q: seq<Candidate>)
    ensures forall c :: c in q ==>
      && c.trackId == id && 0 <= c.messageIndex < |messages|
      && c.d2 == TrackingDistance2(base, messages[c.messageIndex], t) && WithinThreshold(c.d2)
  {
    if messages == [] then []
    else
      var n := |messages| - 1;
      var d2 := TrackingDistance2(base, messages[n], t);
      Near(id, base, messages[..n], t) + (if WithinThreshold(d2) then [Candidate(id, n, d2)] else [])
  }

  /** Every close enough message appears in the track's entries. */
  lemma {:induction false} NearComplete(id: int, base: Point, messages: seq<Message>, t: Vec, j: int)
    requires 0 <= j < |messages| && WithinThreshold(TrackingDistance2(base, messages[j], t))
    ensures Candidate(id, j, TrackingDistance2(base, messages[j], t)) in Near(id, base, messages, t)
  {
    var n := |messages| - 1;
    if j < n {
      assert messages[..n][j] == messages[j];
      NearComplete(id, base, messages[..n], t, j);
    }
  }

  /** The whole queue: tracks in dictionary order, missing tracks skipped, messages in order. */
  function Candidates(order: seq<int>, states: map<int, TrackData>, messages: seq<Message>, t: Vec): seq<Candidate>
    requires forall id :: id in order ==> id in states
  {
    if order == [] then []
    else
      var id := order[|order| - 1];
      Candidates(order[..|order| - 1], states, messages, t) +
        (if states[id].missingCounter >= MISSING_THRESHOLD then [] else Near(id, states[id].basePoint, messages, t))
  }

  /** One more message considered for a track. */
  lemma NearSnoc(id: int, base: Point, messages: seq<Message>, j: int, t: Vec)
    requires 0 <= j < |messages|
    ensures Near(id, base, messages[..j + 1], t) ==
      Near(id, base, messages[..j], t) +
        (if WithinThreshold(TrackingDistance2(base, messages[j], t)) then [Candidate(id, j, TrackingDistance2(base, messages[j], t))] else [])
  {
    assert messages[..j + 1][..j] == messages[..j];
  }

  /** One more track considered for the queue. */
  lemma CandidatesSnoc(order: seq<int>, i: int, states: map<int, TrackData>, messages: seq<Message>, t: Vec)
    requires 0 <= i < |order| && forall id :: id in order ==> id in states
    ensures forall id :: id in order[..i] ==> id in states
    ensures Candidates(order[..i + 1], states, messages, t) ==
      Candidates(order[..i], states, messages, t) +
        (if states[order[i]].missingCounter >= MISSING_THRESHOLD then [] else Near(order[i], states[order[i]].basePoint, messages, t))
  {
    assert order[..i + 1][..i] == order[..i];
  }

  /** A pair is queued exactly when the track is not missing and the detection is within the threshold. */
  lemma {:induction false} CandidatesIff(order: seq<int>, states: map<int, TrackData>, messages: seq<Message>, t: Vec, c: Candidate)
    requires forall id :: id in order ==> id in states
    ensures c in Candidates(order, states, messages, t) <==>
      && c.trackId in order && states[c.trackId].missingCounter < MISSING_THRESHOLD
      && 0 <= c.messageIndex < |messages|
      && c.d2 == TrackingDistance2(states[c.trackId].basePoint, messages[c.messageIndex], t)
      && WithinThreshold(c.d2)
  {
    if order != [] {
      var init := order[..|order| - 1];
      var id := order[|order| - 1];
      CandidatesIff(init, states, messages, t, c);
      assert forall x :: x in order <==> x in init || x == id;
      if c.trackId == id && states[id].missingCounter < MISSING_THRESHOLD && 0 <= c.messageIndex < |messages|
         && c.d2 == TrackingDistance2(states[id].basePoint, messages[c.messageIndex], t) && WithinThreshold(c.d2) {
        NearComplete(id, states[id].basePoint, messages, t, c.messageIndex);
      }
    }
  }

  /** The queue is sorted when no entry is farther than a later one. */
  predicate SortedByDistance(q: seq<Candidate>)
  {
    forall i, j :: 0 <= i < j < |q| ==> q[i].d2 <= q[j].d2
  }

  /** Inserts `c` after every entry that is not farther than it (so equal keys keep their order). */
  function Insert(c: Candidate, s: seq<Candidate>): seq<Candidate>
  {
    if s == [] then [c]
    else if c.d2 < s[0].d2 then [c] + s
    else [s[0]] + Insert(c, s[1..])
  }

  /** `queue.sort(key=lambda item: item[2])`: Python's stable sort by distance. */
  function SortByDistance(q: seq<Candidate>): seq<Candidate>
  {
    if q == [] then [] else Insert(q[|q| - 1], SortByDistance(q[..|q| - 1]))
  }

  /** The entries of `q` at distance key `k`, in order. */
  function AtDistance(k: real, q: seq<Candidate>): seq<Candidate>
  {
    if q == [] then [] else (if q[0].d2 == k then [q[0]] else []) + AtDistance(k, q[1..])
  }

  /** Inserting into a sorted queue keeps it sorted. */
  lemma {:induction false} InsertSorted(c: Candidate, s: seq<Candidate>)
    requires SortedByDistance(s)
    ensures SortedByDistance(Insert(c, s))
    ensures forall x :: x in Insert(c, s) <==> x in s || x == c
  {
    if s != [] && c.d2 >= s[0].d2 {
      InsertSorted(c, s[1..]);
      var r := Insert(c, s[1..]);
      assert Insert(c, s) == [s[0]] + r;
      forall i | 0 < i < |[s[0]] + r| ensures s[0].d2 <= ([s[0]] + r)[i].d2 {
        assert ([s[0]] + r)[i] in r;
      }
      assert forall x :: x in s <==> x == s[0] || x in s[1..];
    }
  }

  /** Inserting adds exactly one entry. */
  lemma {:induction false} InsertPermutes(c: Candidate, s: seq<Candidate>)
    ensures multiset(Insert(c, s)) == multiset(s) + multiset{c}
  {
    if s != [] && c.d2 >= s[0].d2 {
      InsertPermutes(c, s[1..]);
      assert s == [s[0]] + s[1..];
    }
  }

  /** Inserting puts `c` after every entry at its own distance. */
  lemma {:induction false} InsertStable(c: Candidate, s: seq<Candidate>, k: real)
    requires SortedByDistance(s)
    ensures AtDistance(k, Insert(c, s)) == AtDistance(k, s) + (if c.d2 == k then [c] else [])
  {
    if s == [] {
    } else if c.d2 < s[0].d2 {
      assert ([c] + s)[1..] == s;
      if c.d2 == k {
        NoneAtDistance(k, s);
      }
    } else {
      InsertStable(c, s[1..], k);
      assert ([s[0]] + Insert(c, s[1..]))[1..] == Insert(c, s[1..]);
    }
  }

  /** Nothing in a sorted queue whose head is farther than `k` has key `k`. */
  lemma {:induction false} NoneAtDistance(k: real, s: seq<Candidate>)
    requires SortedByDistance(s) && s != [] && k < s[0].d2
    ensures AtDistance(k, s) == []
  {
    if |s| > 1 {
      NoneAtDistance(k, s[1..]);
    }
  }

  lemma {:induction false} AtDistanceAppend(k: real, a: seq<Candidate>, c: Candidate)
    ensures AtDistance(k, a + [c]) == AtDistance(k, a) + (if c.d2 == k then [c] else [])
  {
    if a != [] {
      assert (a + [c])[1..] == a[1..] + [c];
      AtDistanceAppend(k, a[1..], c);
    }
  }

  /** The sorted queue is ordered by distance. */
  lemma {:induction false} SortSorted(q: seq<Candidate>)
    ensures SortedByDistance(SortByDistance(q))
  {
    if q != [] {
      SortSorted(q[..|q| - 1]);
      InsertSorted(q[|q| - 1], SortByDistance(q[..|q| - 1]));
    }
  }

  /** The sorted queue is a permutation of the queue. */
  lemma {:induction false} SortPermutes(q: seq<Candidate>)
    ensures multiset(SortByDistance(q)) == multiset(q)
  {
    if q != [] {
      var init, last := q[..|q| - 1], q[|q| - 1];
      SortPermutes(init);
      InsertPermutes(last, SortByDistance(init));
      assert q == init + [last];
    }
  }

  /** The sort is stable: the entries at every distance keep their queue order. */
  lemma {:induction false} SortStable(q: seq<Candidate>, k: real)
    ensures AtDistance(k, SortByDistance(q)) == AtDistance(k, q)
  {
    if q != [] {
      var init, last := q[..|q| - 1], q[|q| - 1];
      SortStable(init, k);
      SortSorted(init);
      InsertStable(last, SortByDistance(init), k);
      AtDistanceAppend(k, init, last);
      assert q == init + [last];
    }
  }

  /** The set of track ids in a list of entries. */
  function TrackIds(m: seq<Candidate>): set<int>
  {
    set c | c in m :: c.trackId
  }

  /** The set of message indices in a list of entries. */
  function MessageIndices(m: seq<Candidate>): set<int>
  {
    set c | c in m :: c.messageIndex
  }

  /**
   * The `while queue: queue.pop(0)` loop: an entry is taken when both its track and its message
   * are still free, and then both stop being free. The result lists the entries taken, in order.
   */
  function Greedy(q: seq<Candidate>, freeTracks: set<int>, freeMessages: set<int>): seq<Candidate>
  {
    if q == [] then []
    else
      var c := q[0];
      if c.trackId in freeTracks && c.messageIndex in freeMessages then
        [c] + Greedy(q[1..], freeTracks - {c.trackId}, freeMessages - {c.messageIndex})
      else Greedy(q[1..], freeTracks, freeMessages)
  }

  /** Every pair the matching takes was queued, with its track and its message still free. */
  lemma {:induction false} GreedySound(q: seq<Candidate>, freeTracks: set<int>, freeMessages: set<int>)
    ensures forall c :: c in Greedy(q, freeTracks, freeMessages) ==>
      c in q && c.trackId in freeTracks && c.messageIndex in freeMessages
  {
    if q != [] {
      var c := q[0];
      if c.trackId in freeTracks && c.messageIndex in freeMessages {
        GreedySound(q[1..], freeTracks - {c.trackId}, freeMessages - {c.messageIndex});
      } else {
        GreedySound(q[1..], freeTracks, freeMessages);
      }
    }
  }

  /** No track and no message appears in two pairs. */
  predicate Exclusive(r: seq<Candidate>)
  {
    forall i, j :: 0 <= i < j < |r| ==> r[i].trackId != r[j].trackId && r[i].messageIndex != r[j].messageIndex
  }

  /** No track and no message is taken twice. */
  lemma {:induction false} GreedyDistinct(q: seq<Candidate>, freeTracks: set<int>, freeMessages: set<int>)
    ensures Exclusive(Greedy(q, freeTracks, freeMessages))
  {
    if q != [] {
      var c := q[0];
      if c.trackId in freeTracks && c.messageIndex in freeMessages {
        var ft, fm := freeTracks - {c.trackId}, freeMessages - {c.messageIndex};
        GreedyDistinct(q[1..], ft, fm);
        GreedySound(q[1..], ft, fm);
        var rest := Greedy(q[1..], ft, fm);
        var r := [c] + rest;
        assert Greedy(q, freeTracks, freeMessages) == r;
        forall i, j | 0 <= i < j < |r| ensures r[i].trackId != r[j].trackId && r[i].messageIndex != r[j].messageIndex {
          assert r[j] == rest[j - 1] && r[j] in rest;
          if i == 0 {
            assert r[i] == c;
          } else {
            assert r[i] == rest[i - 1];
          }
        }
      } else {
        GreedyDistinct(q[1..], freeTracks, freeMessages);
        assert Greedy(q, freeTracks, freeMessages) == Greedy(q[1..], freeTracks, freeMessages);
      }
    }
  }

  /**
   * The matching is maximal: every queued pair whose track and message were free lost one of
   * them to a pair taken.
   */
  lemma {:induction false} GreedyMaximal(q: seq<Candidate>, freeTracks: set<int>, freeMessages: set<int>)
    ensures var r := Greedy(q, freeTracks, freeMessages);
      forall c :: c in q && c.trackId in freeTracks && c.messageIndex in freeMessages ==>
        c.trackId in TrackIds(r) || c.messageIndex in MessageIndices(r)
  {
    if q != [] {
      var c := q[0];
      if c.trackId in freeTracks && c.messageIndex in freeMessages {
        var ft, fm := freeTracks - {c.trackId}, freeMessages - {c.messageIndex};
        GreedyMaximal(q[1..], ft, fm);
        var rest := Greedy(q[1..], ft, fm);
        var r := [c] + rest;
        forall e | e in q && e.trackId in freeTracks && e.messageIndex in freeMessages
          ensures e.trackId in TrackIds(r) || e.messageIndex in MessageIndices(r)
        {
          if e.trackId == c.trackId || e.messageIndex == c.messageIndex {
            assert c in r;
          } else {
            assert e == c || e in q[1..];
            if e in q[1..] {
              var x :| x in rest && (x.trackId == e.trackId || x.messageIndex == e.messageIndex);
              assert x in r;
            }
          }
        }
      } else {
        GreedyMaximal(q[1..], freeTracks, freeMessages);
        var r := Greedy(q[1..], freeTracks, freeMessages);
        forall e | e in q && e.trackId in freeTracks && e.messageIndex in freeMessages
          ensures e.trackId in TrackIds(r) || e.messageIndex in MessageIndices(r)
        {
          assert e in q[1..];
        }
      }
    }
  }

  /** The index of the message taken by track `id`, if any (the last entry for it). */
  function MatchOf(id: int, m: seq<Candidate>): (r: Option<int>)
    ensures r.None? <==> id !in TrackIds(m)
  {
    if m == [] then None
    else if m[|m| - 1].trackId == id then Some(m[|m| - 1].messageIndex)
    else
      var init := m[..|m| - 1];
      assert forall c :: c in m <==> c in init || c == m[|m| - 1];
      MatchOf(id, init)
  }

  /** The message a track is updated with this frame: the one it took, or none (a miss). */
  function MessageFor(id: int, m: seq<Candidate>, messages: seq<Message>): Option<Message>
  {
    match MatchOf(id, m)
    case None => None
    case Some(i) => if 0 <= i < |messages| then Some(messages[i]) else None
  }

  /** The tracks that took a message, in the order they took it (`display_tracks_list`). */
  function TracksOf(m: seq<Candidate>, tracks: map<int, Track>): (r: seq<Track>)
    requires forall c :: c in m ==> c.trackId in tracks
    ensures |r| == |m| && forall k :: 0 <= k < |m| ==> r[k] == tracks[m[k].trackId]
  {
    seq(|m|, k requires 0 <= k < |m| => tracks[m[k].trackId])
  }

  /** The matching of one frame from the state before it. */
  ghost function Matching(order: seq<int>, states: map<int, TrackData>, messages: seq<Message>, t: Vec): seq<Candidate>
    requires forall id :: id in order ==> id in states
  {
    Greedy(SortByDistance(Candidates(order, states, messages, t)), states.Keys, Indices(|messages|))
  }

  /** `set(range(n))`. */
  function Indices(n: nat): (r: set<int>)
    ensures forall i :: i in r <==> 0 <= i < n
  {
    if n == 0 then {} else Indices(n - 1) + {n - 1}
  }

  /** The members of `free` below `n`, ascending: the order in which new tracks are born. */
  function InOrder(free: set<int>, n: nat): (r: seq<int>)
    ensures forall k :: 0 <= k < |r| ==> 0 <= r[k] < n && r[k] in free
  {
    if n == 0 then [] else InOrder(free, n - 1) + (if n - 1 in free then [n - 1] else [])
  }

  /** `InOrder` lists every member of `free` below `n` exactly once, in ascending order. */
  lemma {:induction false} InOrderSpec(free: set<int>, n: nat)
    ensures forall i :: i in InOrder(free, n) <==> 0 <= i < n && i in free
    ensures forall a, b :: 0 <= a < b < |InOrder(free, n)| ==> InOrder(free, n)[a] < InOrder(free, n)[b]
  {
    if n > 0 {
      InOrderSpec(free, n - 1);
    }
  }

  /** The ids given to `k` new tracks when the counter stands at `c`. */
  function NewIds(c: int, k: nat): (r: seq<int>)
    ensures |r| == k && forall i :: 0 <= i < k ==> r[i] == c + 1 + i
  {
    seq(k, i requires 0 <= i < k => c + 1 + i)
  }

  /** The ids, in dictionary order, of the tracks `clear()` removes. */
  function DeadIds(order: seq<int>, states: map<int, TrackData>): (r: seq<int>)
    requires forall id :: id in order ==> id in states
    ensures forall id :: id in r ==> id in order
  {
    if order == [] then []
    else
      var id := order[|order| - 1];
      DeadIds(order[..|order| - 1], states) + (if states[id].servalTime <= 0 then [id] else [])
  }

  /** The ids, in dictionary order, of the tracks `clear()` keeps. */
  function AliveIds(order: seq<int>, states: map<int, TrackData>): (r: seq<int>)
    requires forall id :: id in order ==> id in states
    ensures forall id :: id in r ==> id in order
  {
    if order == [] then []
    else
      var id := order[|order| - 1];
      AliveIds(order[..|order| - 1], states) + (if states[id].servalTime <= 0 then [] else [id])
  }

  /** `clear()` splits the tracks: the dead ones have run out of time, the kept ones have not. */
  lemma {:induction false} ClearSplit(order: seq<int>, states: map<int, TrackData>)
    requires forall id :: id in order ==> id in states
    ensures forall id :: id in DeadIds(order, states) <==> id in order && states[id].servalTime <= 0
    ensures forall id :: id in AliveIds(order, states) <==> id in order && states[id].servalTime > 0
    ensures |DeadIds(order, states)| + |AliveIds(order, states)| == |order|
  {
    if order != [] {
      ClearSplit(order[..|order| - 1], states);
      assert forall x :: x in order <==> x in order[..|order| - 1] || x == order[|order| - 1];
    }
  }

  /** `clear()` keeps the dictionary order of the surviving ids, so they stay distinct. */
  lemma {:induction false} AliveDistinct(order: seq<int>, states: map<int, TrackData>)
    requires forall id :: id in order ==> id in states
    requires forall a, b :: 0 <= a < b < |order| ==> order[a] != order[b]
    ensures var r := AliveIds(order, states); forall a, b :: 0 <= a < b < |r| ==> r[a] != r[b]
  {
    if order != [] {
      var init := order[..|order| - 1];
      var last := order[|order| - 1];
      AliveDistinct(init, states);
      assert forall k :: 0 <= k < |init| ==> init[k] != last;
      assert last !in AliveIds(init, states);
    }
  }

  /** `ts` lists, in order, the tracks stored under `ids`. */
  predicate Listed(ts: seq<Track>, ids: seq<int>, tracks: map<int, Track>)
  {
    |ts| == |ids| && forall k :: 0 <= k < |ids| ==> ids[k] in tracks && ts[k] == tracks[ids[k]]
  }

  lemma ListedSnoc(ts: seq<Track>, ids: seq<int>, tracks: map<int, Track>, id: int)
    requires Listed(ts, ids, tracks) && id in tracks
    ensures Listed(ts + [tracks[id]], ids + [id], tracks)
  {
  }

  /** A second `clear()` finds nothing to remove: no kept track has run out of time. */
  lemma {:induction false} ClearTwice(order: seq<int>, states: map<int, TrackData>)
    requires forall id :: id in order ==> id in states && states[id].servalTime > 0
    ensures DeadIds(order, states) == []
    ensures AliveIds(order, states) == order
  {
    if order != [] {
      var n := |order| - 1;
      assert order == order[..n] + [order[n]];
      ClearTwice(order[..n], states);
    }
  }

  /** `deepcopy` of the tracks shown: the states of the listed tracks with more than two detections. */
  function Shown(ts: seq<Track>): (r: seq<TrackData>)
    reads set k | 0 <= k < |ts| :: ts[k]
    ensures forall d :: d in r ==> CountOnes(d.detectionSequence) > 2
    ensures forall k :: 0 <= k < |ts| && ts[k].Display() ==> ts[k].Data() in r
    ensures forall d :: d in r ==> exists k :: 0 <= k < |ts| && ts[k].Data() == d
  {
    if ts == [] then []
    else
      var init := ts[..|ts| - 1];
      var last := ts[|ts| - 1];
      assert forall k :: 0 <= k < |init| ==> init[k] == ts[k];
      Shown(init) + (if last.Display() then [last.Data()] else [])
  }

  /** The state a track reaches this frame from `s`: updated with its match, or not yet updated. */
  function Planned(states: map<int, TrackData>, id: int, m: seq<Candidate>, messages: seq<Message>, t: Vec): TrackData
    requires id in states
  {
    if id in TrackIds(m) then Step(states[id], MessageFor(id, m, messages), Some(t)) else states[id]
  }

  /** A pair taken from the head of the queue: the rest is matched from the smaller free sets. */
  lemma GreedyTakes(m: seq<Candidate>, q: seq<Candidate>, freeTracks: set<int>, freeMessages: set<int>, g0: seq<Candidate>)
    requires q != [] && q[0].trackId in freeTracks && q[0].messageIndex in freeMessages
    requires m + Greedy(q, freeTracks, freeMessages) == g0
    ensures (m + [q[0]]) + Greedy(q[1..], freeTracks - {q[0].trackId}, freeMessages - {q[0].messageIndex}) == g0
  {
    var c := q[0];
    assert Greedy(q, freeTracks, freeMessages) == [c] + Greedy(q[1..], freeTracks - {c.trackId}, freeMessages - {c.messageIndex});
  }

  /** A pair appended to the matching adds exactly its track and its message to the taken ones. */
  lemma TakenAppend(m: seq<Candidate>, c: Candidate, ids: set<int>, indices: set<int>)
    ensures TrackIds(m + [c]) == TrackIds(m) + {c.trackId}
    ensures MessageIndices(m + [c]) == MessageIndices(m) + {c.messageIndex}
    ensures ids - TrackIds(m + [c]) == (ids - TrackIds(m)) - {c.trackId}
    ensures indices - MessageIndices(m + [c]) == (indices - MessageIndices(m)) - {c.messageIndex}
  {
    assert forall x :: x in m + [c] <==> x in m || x == c;
  }

  /**
   * One pair taken by the matching loop: the plan changes for the pair's track only, from its
   * state before the frame to that state updated with the pair's message.
   */
  lemma PlanStep(states: map<int, TrackData>, m: seq<Candidate>, c: Candidate, messages: seq<Message>, t: Vec)
    requires c.trackId in states && c.trackId !in TrackIds(m)
    requires 0 <= c.messageIndex < |messages|
    ensures forall id :: id in states && id != c.trackId ==> Planned(states, id, m + [c], messages, t) == Planned(states, id, m, messages, t)
    ensures Planned(states, c.trackId, m, messages, t) == states[c.trackId]
    ensures Planned(states, c.trackId, m + [c], messages, t) == Step(states[c.trackId], Some(messages[c.messageIndex]), Some(t))
  {
    TakenAppend(m, c, {}, {});
    assert (m + [c])[..|m|] == m;
  }

  /** Distinct ids hold distinct track objects. */
  ghost predicate Injective(tracks: map<int, Track>)
  {
    forall a, b :: a in tracks && b in tracks && a != b ==> tracks[a] != tracks[b]
  }

  /** Every planned state of a consistent track is consistent. */
  lemma PlannedValid(states: map<int, TrackData>, m: seq<Candidate>, messages: seq<Message>, t: Vec)
    requires forall id :: id in states ==> ValidData(states[id])
    ensures forall id :: id in states ==> ValidData(Planned(states, id, m, messages, t))
  {
    forall id | id in states ensures ValidData(Planned(states, id, m, messages, t)) {
      if id in TrackIds(m) {
        StepPreservesValid(states[id], MessageFor(id, m, messages), Some(t));
      }
    }
  }

  lemma TracksOfAppend(m: seq<Candidate>, c: Candidate, tracks: map<int, Track>)
    requires forall x :: x in m ==> x.trackId in tracks
    requires c.trackId in tracks
    ensures TracksOf(m + [c], tracks) == TracksOf(m, tracks) + [tracks[c.trackId]]
  {
    assert (m + [c])[..|m|] == m;
  }

  /** The sorted queue names only existing tracks and existing messages. */
  lemma SortedQueueBounds(order: seq<int>, states: map<int, TrackData>, messages: seq<Message>, t: Vec)
    requires forall id :: id in order ==> id in states
    ensures forall c :: c in SortByDistance(Candidates(order, states, messages, t)) ==>
      c.trackId in order && 0 <= c.messageIndex < |messages|
  {
    var q := Candidates(order, states, messages, t);
    SortPermutes(q);
    forall c | c in SortByDistance(q) ensures c.trackId in order && 0 <= c.messageIndex < |messages| {
      assert c in multiset(SortByDistance(q));
      CandidatesIff(order, states, messages, t, c);
    }
  }

  /** One more entry considered by `clear()`: it joins the dead or the kept ids. */
  lemma ClearStep(order: seq<int>, i: int, states: map<int, TrackData>)
    requires 0 <= i < |order| && forall id :: id in order ==> id in states
    ensures forall x :: x in order[..i] ==> x in states
    ensures var id := order[i];
      && DeadIds(order[..i + 1], states) == DeadIds(order[..i], states) + (if states[id].servalTime <= 0 then [id] else [])
      && AliveIds(order[..i + 1], states) == AliveIds(order[..i], states) + (if states[id].servalTime <= 0 then [] else [id])
  {
    assert order[..i + 1][..i] == order[..i];
  }

  /** The dictionary after `added` tracks were stored under the ids following `c`, in order. */
  function Extend<T>(tracks: map<int, T>, c: int, added: seq<T>): map<int, T>
  {
    if added == [] then tracks
    else Extend(tracks, c, added[..|added| - 1])[c + |added| := added[|added| - 1]]
  }

  /** One more id issued. */
  lemma NewIdsSnoc(c: int, k: nat)
    ensures NewIds(c, k + 1) == NewIds(c, k) + [c + k + 1]
  {
    assert NewIds(c, k + 1)[..k] == NewIds(c, k);
  }

  /** One more entry stored, under the next id. */
  lemma ExtendSnoc<T>(tracks: map<int, T>, c: int, added: seq<T>, x: T)
    ensures Extend(tracks, c, added + [x]) == Extend(tracks, c, added)[c + |added| + 1 := x]
  {
    assert (added + [x])[..|added|] == added;
  }

  /** Storing under fresh ids keeps every old entry and puts the k-th added one under id c + 1 + k. */
  lemma {:induction false} ExtendLookup<T>(tracks: map<int, T>, c: int, added: seq<T>)
    requires forall id :: id in tracks ==> id <= c
    ensures forall id :: id in Extend(tracks, c, added) <==> id in tracks || c < id <= c + |added|
    ensures forall id :: id in tracks ==> Extend(tracks, c, added)[id] == tracks[id]
    ensures forall k :: 0 <= k < |added| ==> Extend(tracks, c, added)[c + 1 + k] == added[k]
  {
    if added != [] {
      ExtendLookup(tracks, c, added[..|added| - 1]);
    }
  }

  /**
   * The tracker's structure: `order` is the dictionary order of the keys, every id was issued
   * by the counter, and distinct ids hold distinct track objects.
   */
  ghost predicate WellFormed(counter: int, order: seq<int>, tracks: map<int, Track>)
  {
    && counter >= 0
    && (forall i, j :: 0 <= i < j < |order| ==> order[i] != order[j])
    && (forall id :: id in tracks <==> id in order)
    && (forall id :: id in tracks ==> 1 <= id <= counter)
    && Injective(tracks)
  }

  /** Dropping the expired entries keeps the structure, with the survivors in their old order. */
  lemma ClearWellFormed(counter: int, order: seq<int>, tracks: map<int, Track>, kept: map<int, Track>, states: map<int, TrackData>)
    requires WellFormed(counter, order, tracks) && forall id :: id in order ==> id in states
    requires forall id :: id in kept <==> id in tracks && states[id].servalTime > 0
    requires forall id :: id in kept ==> kept[id] == tracks[id]
    ensures WellFormed(counter, AliveIds(order, states), kept)
  {
    ClearSplit(order, states);
    AliveDistinct(order, states);
  }

  /** Storing a new track under the next id keeps the structure, with the id last in order. */
  lemma BirthWellFormed(counter: int, order: seq<int>, tracks: map<int, Track>, track: Track)
    requires WellFormed(counter, order, tracks) && forall id :: id in tracks ==> tracks[id] != track
    ensures WellFormed(counter + 1, order + [counter + 1], tracks[counter + 1 := track])
  {
    forall k | 0 <= k < |order| ensures order[k] in tracks && order[k] < counter + 1 {
      assert order[k] in order;
    }
  }

  /** Storing distinct new tracks under the next ids, in order, keeps the structure. */
  lemma {:induction false} AddWellFormed(counter: int, order: seq<int>, tracks: map<int, Track>, added: seq<Track>)
    requires WellFormed(counter, order, tracks)
    requires forall a, b :: 0 <= a < b < |added| ==> added[a] != added[b]
    requires forall id, k :: id in tracks && 0 <= k < |added| ==> tracks[id] != added[k]
    ensures WellFormed(counter + |added|, order + NewIds(counter, |added|), Extend(tracks, counter, added))
  {
    if added != [] {
      var n := |added| - 1;
      var init := added[..n];
      AddWellFormed(counter, order, tracks, init);
      NewIdsSnoc(counter, n);
      ExtendLookup(tracks, counter, init);
      var ext := Extend(tracks, counter, init);
      forall id | id in ext ensures ext[id] != added[n] {
        if id !in tracks {
          assert ext[counter + 1 + (id - counter - 1)] == init[id - counter - 1];
        }
      }
      BirthWellFormed(counter + n, order + NewIds(counter, n), ext, added[n]);
      assert order + NewIds(counter, n + 1) == order + NewIds(counter, n) + [counter + n + 1];
    }
  }

  /** `Track(track_id, message, frame_index)`: a track born with this id, frame and first message. */
  ghost predicate Newborn(track: Track, id: int, frameIndex: int, m: Message)
    reads track
  {
    track.trackId == id && track.startFrame == frameIndex && track.Data() == Initial(m)
  }

  /** Every track of `tracks` is in the state `states` gives for its id. */
  ghost predicate HoldsIn(tracks: map<int, Track>, states: map<int, TrackData>)
    reads tracks.Values
  {
    forall id :: id in tracks ==> id in states && tracks[id].Data() == states[id]
  }

  /** `track.dead()` on one track of a dictionary; the other tracks are untouched. */
  method Ask(ghost tracks: map<int, Track>, ghost states: map<int, TrackData>, id: int, track: Track) returns (die: bool)
    requires Injective(tracks) && HoldsIn(tracks, states) && id in tracks && track == tracks[id]
    modifies track
    ensures die <==> states[id].servalTime <= 0
    ensures HoldsIn(tracks, states[id := if die then Expired(states[id]) else states[id]])
  {
    die := track.Dead();
    forall other | other in tracks && other != id ensures tracks[other].Data() == old(tracks[other].Data()) {
      assert tracks[other] != track;
    }
  }

  /**
   * The state of the clearing loop: the ids in `done` (the first `i` of `o0`) were asked
   * `dead()`; the expired ones are gone from `tracks` and listed in `cleared`, and `now` holds
   * every track's state.
   */
  ghost predicate Clearing(states: map<int, TrackData>, tr0: map<int, Track>, o0: seq<int>, i: int, done: set<int>,
                           now: map<int, TrackData>, kept: seq<int>, cleared: seq<Track>, tracks: map<int, Track>)
  {
    && (forall id :: id in o0 ==> id in tr0)
    && (forall id :: id in tr0 ==> id in states && id in now)
    && 0 <= i <= |o0|
    && (forall j :: 0 <= j < |o0| ==> (o0[j] in done <==> j < i))
    && kept == AliveIds(o0[..i], states)
    && Listed(cleared, DeadIds(o0[..i], states), tr0)
    && (forall id :: id in tracks <==> id in tr0 && (id !in done || states[id].servalTime > 0))
    && (forall id :: id in tracks ==> tracks[id] == tr0[id])
    && (forall id :: id in tr0 ==>
          now[id] == if id in done && states[id].servalTime <= 0 then Expired(states[id]) else states[id])
  }

  /** Every id asked: the kept and cleared lists are complete, and so is the dictionary's update. */
  lemma ClearingDone(states: map<int, TrackData>, tr0: map<int, Track>, o0: seq<int>, done: set<int>,
                     now: map<int, TrackData>, kept: seq<int>, cleared: seq<Track>, tracks: map<int, Track>)
    requires Clearing(states, tr0, o0, |o0|, done, now, kept, cleared, tracks) && forall id :: id in tr0 ==> id in o0
    ensures kept == AliveIds(o0, states) && Listed(cleared, DeadIds(o0, states), tr0)
    ensures forall id :: id in tracks <==> id in tr0 && states[id].servalTime > 0
    ensures forall id :: id in tr0 ==> now[id] == if id in tracks then states[id] else Expired(states[id])
  {
    assert o0[..|o0|] == o0;
    forall x | x in o0 ensures x in done {
      var j :| 0 <= j < |o0| && o0[j] == x;
    }
  }

  /** One more id asked: it joins the kept ids, or leaves the dictionary for the cleared list. */
  lemma ClearingStep(states: map<int, TrackData>, tr0: map<int, Track>, o0: seq<int>, i: int, done: set<int>,
                     now: map<int, TrackData>, kept: seq<int>, cleared: seq<Track>, tracks: map<int, Track>, die: bool)
    requires forall a, b :: 0 <= a < b < |o0| ==> o0[a] != o0[b]
    requires Clearing(states, tr0, o0, i, done, now, kept, cleared, tracks) && i < |o0|
    requires die <==> now[o0[i]].servalTime <= 0
    ensures var id := o0[i];
      Clearing(states, tr0, o0, i + 1, done + {id}, now[id := if die then Expired(now[id]) else now[id]],
               if die then kept else kept + [id], if die then cleared + [tr0[id]] else cleared,
               if die then tracks - {id} else tracks)
  {
    var id := o0[i];
    ClearStep(o0, i, states);
    if die {
      ListedSnoc(cleared, DeadIds(o0[..i], states), tr0, id);
    }
    var tracks' := if die then tracks - {id} else tracks;
    forall x ensures x in tracks' <==> x in tr0 && (x !in done + {id} || states[x].servalTime > 0) {
      if x != id {
        assert x in tracks' <==> x in tracks;
      }
    }
  }

  /** The inner loop of the queue: the close enough messages of one track, in message order. */
  method NearMessages(id: int, base: Point, messages: seq<Message>, t: Vec) returns (near: seq<Candidate>)
    ensures near == Near(id, base, messages, t)
  {
    near := [];
    var j := 0;
    while j < |messages|
      invariant 0 <= j <= |messages|
      invariant near == Near(id, base, messages[..j], t)
    {
      var d2 := TrackingDistance2(base, messages[j], t);
      NearSnoc(id, base, messages, j, t);
      if WithinThreshold(d2) {
        near := near + [Candidate(id, j, d2)];
      }
      j := j + 1;
    }
    assert messages[..j] == messages;
  }

  class Tracker {
    var counter: int
    var tracks: map<int, Track>
    var order: seq<int>
    var displayList: seq<Track>

    /** The structure of the tracker's dictionary (see `WellFormed`). */
    ghost predicate Valid()
      reads this`counter, this`order, this`tracks
    {
      WellFormed(counter, order, tracks)
    }

    /** The state of every track, by id. */
    ghost function States(): map<int, TrackData>
      reads this`tracks, tracks.Values
    {
      map id | id in tracks :: tracks[id].Data()
    }

    /** Every track is in the state `states` gives for its id. */
    ghost predicate Holds(states: map<int, TrackData>)
      reads this`tracks, tracks.Values
    {
      HoldsIn(tracks, states)
    }

    constructor ()
      ensures Valid()
      ensures counter == 0 && tracks == map[] && order == [] && displayList == []
    {
      counter := 0;
      tracks := map[];
      order := [];
      displayList := [];
    }

    /** The nested loops that fill the queue. */
    method BuildQueue(ghost states: map<int, TrackData>, messages: seq<Message>, t: Vec) returns (queue: seq<Candidate>)
      requires Valid() && Holds(states)
      ensures queue == Candidates(order, states, messages, t)
    {
      assert forall id :: id in order ==> id in tracks;
      assert forall id :: id in tracks ==> id in states && tracks[id].Data() == states[id];
      queue := [];
      var i := 0;
      while i < |order|
        invariant 0 <= i <= |order|
        invariant queue == Candidates(order[..i], states, messages, t)
      {
        var id := order[i];
        var track := tracks[id];
        CandidatesSnoc(order, i, states, messages, t);
        if !track.Missing() {
          var near := NearMessages(id, track.basePoint, messages, t);
          queue := queue + near;
        }
        i := i + 1;
      }
      assert order[..i] == order;
    }

    /**
     * The state of the matching loop after the pairs `matched`: the free sets are what those
     * pairs left, the shown list holds their tracks in order, and every track is in its planned
     * state.
     */
    ghost predicate Matched(states: map<int, TrackData>, d0: seq<Track>, matched: seq<Candidate>,
                            freeTracks: set<int>, freeMessages: set<int>, messages: seq<Message>, t: Vec)
      reads this, tracks.Values
    {
      && Injective(tracks)
      && (forall c :: c in matched ==> c.trackId in tracks)
      && freeTracks == tracks.Keys - TrackIds(matched)
      && freeMessages == Indices(|messages|) - MessageIndices(matched)
      && displayList == d0 + TracksOf(matched, tracks)
      && forall id :: id in tracks ==> id in states && tracks[id].Data() == Planned(states, id, matched, messages, t)
    }

    /**
     * One pair taken: the pair's track is updated with its message and listed as shown this
     * frame, the pair's track and message stop being free, and every other track is untouched.
     */
    method Take(ghost states: map<int, TrackData>, ghost d0: seq<Track>, ghost matched: seq<Candidate>, c: Candidate,
                freeTracks: set<int>, freeMessages: set<int>, messages: seq<Message>, t: Vec)
      requires Matched(states, d0, matched, freeTracks, freeMessages, messages, t)
      requires c.trackId in freeTracks && c.messageIndex in freeMessages && 0 <= c.messageIndex < |messages|
      modifies this`displayList, tracks[c.trackId]
      ensures Matched(states, d0, matched + [c], freeTracks - {c.trackId}, freeMessages - {c.messageIndex}, messages, t)
    {
      var track := tracks[c.trackId];
      PlanStep(states, matched, c, messages, t);
      TakenAppend(matched, c, tracks.Keys, Indices(|messages|));
      TracksOfAppend(matched, c, tracks);
      track.Update(Some(messages[c.messageIndex]), Some(t));
      displayList := displayList + [track];
      forall id | id in tracks && id != c.trackId
        ensures tracks[id].Data() == Planned(states, id, matched + [c], messages, t)
      {
        assert tracks[id] != track;
        assert tracks[id].Data() == old(tracks[id].Data());
      }
    }

    /** The matching loop: pops the sorted queue from the front and updates each track it pairs. */
    method MatchQueue(ghost states: map<int, TrackData>, queue: seq<Candidate>, messages: seq<Message>, t: Vec)
      returns (ghost matched: seq<Candidate>, freeTracks: set<int>, freeMessages: set<int>)
      requires Valid() && Holds(states)
      requires forall c :: c in queue ==> c.trackId in tracks && 0 <= c.messageIndex < |messages|
      modifies this`displayList, tracks.Values
      ensures Valid()
      ensures matched == Greedy(queue, old(tracks).Keys, Indices(|messages|))
      ensures freeTracks == old(tracks).Keys - TrackIds(matched)
      ensures freeMessages == Indices(|messages|) - MessageIndices(matched)
      ensures forall c :: c in matched ==> c.trackId in tracks
      ensures displayList == old(displayList) + TracksOf(matched, tracks)
      ensures forall id :: id in tracks ==> id in states && tracks[id].Data() == Planned(states, id, matched, messages, t)
    {
      ghost var g0 := Greedy(queue, tracks.Keys, Indices(|messages|));
      ghost var d0, tr := displayList, tracks;
      freeTracks, freeMessages := tracks.Keys, Indices(|messages|);
      matched := [];
      var rest := queue;
      while rest != []
        invariant tracks == tr
        invariant forall c :: c in rest ==> c.trackId in tr && 0 <= c.messageIndex < |messages|
        invariant matched + Greedy(rest, freeTracks, freeMessages) == g0
        invariant Matched(states, d0, matched, freeTracks, freeMessages, messages, t)
      {
        ghost var q := rest;
        var c := rest[0];
        rest := rest[1..];
        if c.trackId in freeTracks && c.messageIndex in freeMessages {
          GreedyTakes(matched, q, freeTracks, freeMessages, g0);
          Take(states, d0, matched, c, freeTracks, freeMessages, messages, t);
          matched := matched + [c];
          freeTracks := freeTracks - {c.trackId};
          freeMessages := freeMessages - {c.messageIndex};
        }
      }
    }

    /** The miss loop: every track left without a message is updated as missed. */
    method MissUnmatched(ghost states: map<int, TrackData>, free: set<int>, t: Vec)
      requires Valid() && Holds(states)
      modifies tracks.Values
      ensures forall id :: id in tracks ==>
        tracks[id].Data() == if id in free then Step(states[id], None, Some(t)) else states[id]
    {
      ghost var now := states;
      assert forall id :: id in order ==> id in tracks;
      assert forall id :: id in tracks ==> id in states;
      forall j | 0 <= j < |order| ensures order[j] in tracks && order[j] in states {
        assert order[j] in order;
      }
      var i := 0;
      while i < |order|
        invariant 0 <= i <= |order| && Holds(now)
        invariant forall j :: 0 <= j < |order| ==> order[j] in tracks && order[j] in states
        invariant forall j :: 0 <= j < |order| ==>
          && order[j] in now
          && now[order[j]] == if order[j] in free && j < i then Step(states[order[j]], None, Some(t)) else states[order[j]]
      {
        var id := order[i];
        if id in free {
          Miss(now, id, t);
          now := now[id := Step(now[id], None, Some(t))];
        }
        i := i + 1;
      }
      forall id | id in tracks
        ensures tracks[id].Data() == if id in free then Step(states[id], None, Some(t)) else states[id]
      {
        var j :| 0 <= j < |order| && order[j] == id;
      }
    }

    /** `track.update(translation=translation)` on one unmatched track; the others are untouched. */
    method Miss(ghost now: map<int, TrackData>, id: int, t: Vec)
      requires Injective(tracks) && Holds(now) && id in tracks
      modifies tracks[id]
      ensures Holds(now[id := Step(now[id], None, Some(t))])
    {
      var track := tracks[id];
      track.Update(None, Some(t));
      forall other | other in tracks && other != id ensures tracks[other].Data() == old(tracks[other].Data()) {
        assert tracks[other] != track;
      }
    }

    /** One new track: the counter moves on and the track is stored under the new id. */
    method Birth(frameIndex: int, message: Message) returns (track: Track)
      modifies this
      ensures counter == old(counter) + 1 && order == old(order) + [counter] && displayList == old(displayList)
      ensures tracks == old(tracks)[counter := track] && fresh(track)
      ensures Newborn(track, counter, frameIndex, message)
    {
      counter := counter + 1;
      track := new Track(counter, message, frameIndex);
      tracks := tracks[counter := track];
      order := order + [counter];
    }

    /** One pass of the birth loop: message `i` starts a track when it is free. */
    method BirthStep(frameIndex: int, messages: seq<Message>, free: set<int>, i: int, ghost c0: int, ghost o0: seq<int>,
                     ghost tr0: map<int, Track>, ghost born: seq<int>, ghost created: seq<Track>)
      returns (ghost born': seq<int>, ghost created': seq<Track>)
      requires 0 <= i < |messages| && born == InOrder(free, i) && |created| == |born|
      requires counter == c0 + |born| && order == o0 + NewIds(c0, |born|)
      requires tracks == Extend(tr0, c0, created)
      requires forall k :: 0 <= k < |created| ==> Newborn(created[k], c0 + 1 + k, frameIndex, messages[born[k]])
      modifies this
      ensures born' == InOrder(free, i + 1) && |created'| == |born'|
      ensures displayList == old(displayList)
      ensures counter == c0 + |born'| && order == o0 + NewIds(c0, |born'|)
      ensures tracks == Extend(tr0, c0, created')
      ensures forall k :: 0 <= k < |created'| ==> Newborn(created'[k], c0 + 1 + k, frameIndex, messages[born'[k]])
      ensures |created| <= |created'| && forall k :: 0 <= k < |created| ==> created'[k] == created[k]
      ensures forall k :: |created| <= k < |created'| ==> fresh(created'[k])
    {
      born', created' := born, created;
      if i in free {
        var track := Birth(frameIndex, messages[i]);
        NewIdsSnoc(c0, |born|);
        ExtendSnoc(tr0, c0, created, track);
        born', created' := born + [i], created + [track];
      }
    }

    /** The birth loop: a new track, with the next id, for every free message in ascending index order. */
    method AddTracks(frameIndex: int, messages: seq<Message>, free: set<int>) returns (ghost created: seq<Track>)
      requires Valid()
      modifies this
      ensures Valid()
      ensures var born := InOrder(free, |messages|);
        && displayList == old(displayList)
        && |created| == |born|
        && counter == old(counter) + |born|
        && order == old(order) + NewIds(old(counter), |born|)
        && tracks == Extend(old(tracks), old(counter), created)
        && (forall k :: 0 <= k < |created| ==>
              fresh(created[k]) && Newborn(created[k], old(counter) + 1 + k, frameIndex, messages[born[k]]))
    {
      ghost var c0, o0, tr0 := counter, order, tracks;
      ghost var born := [];
      created := [];
      var i := 0;
      while i < |messages|
        invariant 0 <= i <= |messages| && born == InOrder(free, i) && |created| == |born|
        invariant displayList == old(displayList)
        invariant counter == c0 + |born| && order == o0 + NewIds(c0, |born|)
        invariant tracks == Extend(tr0, c0, created)
        invariant forall k :: 0 <= k < |created| ==> Newborn(created[k], c0 + 1 + k, frameIndex, messages[born[k]])
        invariant forall k :: 0 <= k < |created| ==> fresh(created[k])
      {
        born, created := BirthStep(frameIndex, messages, free, i, c0, o0, tr0, born, created);
        i := i + 1;
      }
      AddWellFormed(c0, o0, tr0, created);
    }

    /**
     * The first half of `update`: clears the shown list, matches the tracks to the messages
     * nearest first and updates the unmatched tracks as missed. Returns the message indices left
     * free.
     */
    method MatchFrame(messages: seq<Message>, t: Vec) returns (ghost matched: seq<Candidate>, freeMessages: set<int>)
      requires Valid()
      modifies this`displayList, tracks.Values
      ensures matched == Matching(order, old(States()), messages, t)
      ensures freeMessages == Indices(|messages|) - MessageIndices(matched)
      ensures forall c :: c in matched ==> c.trackId in tracks
      ensures displayList == TracksOf(matched, tracks)
      ensures forall id :: id in tracks ==>
        tracks[id].Data() == Step(old(States())[id], MessageFor(id, matched, messages), Some(t))
    {
      ghost var states := States();
      assert states.Keys == tracks.Keys;
      displayList := [];
      var queue := BuildQueue(states, messages, t);
      queue := SortByDistance(queue);
      SortedQueueBounds(order, states, messages, t);
      var freeTracks;
      matched, freeTracks, freeMessages := MatchQueue(states, queue, messages, t);
      assert displayList == TracksOf(matched, tracks);
      ghost var planned := map id | id in tracks :: Planned(states, id, matched, messages, t);
      MissUnmatched(planned, freeTracks, t);
      forall id | id in tracks
        ensures tracks[id].Data() == Step(states[id], MessageFor(id, matched, messages), Some(t))
      {
        if id !in TrackIds(matched) {
          assert MatchOf(id, matched).None?;
        }
      }
    }

    /**
     * `update`: clears the shown list, matches the tracks to the messages nearest first, updates
     * the unmatched tracks as missed and creates a track for each unmatched message.
     */
    method Update(frameIndex: int, messages: seq<Message>, t: Vec)
      returns (ghost matched: seq<Candidate>, ghost born: seq<int>, ghost created: seq<Track>)
      requires Valid()
      modifies this, tracks.Values
      ensures Valid()
      ensures matched == Matching(old(order), old(States()), messages, t)
      ensures born == InOrder(Indices(|messages|) - MessageIndices(matched), |messages|)
      ensures forall c :: c in matched ==> c.trackId in old(tracks)
      ensures displayList == TracksOf(matched, old(tracks))
      ensures forall id :: id in old(tracks) ==>
        old(tracks)[id].Data() == Step(old(States())[id], MessageFor(id, matched, messages), Some(t))
      ensures |created| == |born| && counter == old(counter) + |born|
      ensures order == old(order) + NewIds(old(counter), |born|)
      ensures tracks == Extend(old(tracks), old(counter), created)
      ensures forall k :: 0 <= k < |created| ==>
        fresh(created[k]) && Newborn(created[k], old(counter) + 1 + k, frameIndex, messages[born[k]])
    {
      ghost var tr0 := tracks;
      var freeMessages;
      matched, freeMessages := MatchFrame(messages, t);
      label matchedFrame:
      created := AddTracks(frameIndex, messages, freeMessages);
      born := InOrder(freeMessages, |messages|);
      forall id | id in tr0 ensures tr0[id].Data() == old@matchedFrame(tr0[id].Data()) {
      }
    }

    /** One pass of the comprehension in `clear()`: asks the next track whether it is dead. */
    method Expire(ghost states: map<int, TrackData>, ghost tr0: map<int, Track>, o0: seq<int>, i: int,
                  ghost done: set<int>, ghost now: map<int, TrackData>, kept: seq<int>, cleared: seq<Track>)
      returns (ghost done': set<int>, ghost now': map<int, TrackData>, kept': seq<int>, cleared': seq<Track>)
      requires forall a, b :: 0 <= a < b < |o0| ==> o0[a] != o0[b]
      requires Injective(tr0) && HoldsIn(tr0, now)
      requires Clearing(states, tr0, o0, i, done, now, kept, cleared, tracks) && i < |o0|
      modifies this`tracks, tr0[o0[i]]
      ensures HoldsIn(tr0, now') && Clearing(states, tr0, o0, i + 1, done', now', kept', cleared', tracks)
    {
      var id := o0[i];
      var track := tracks[id];
      var die := Ask(tr0, now, id, track);
      ClearingStep(states, tr0, o0, i, done, now, kept, cleared, tracks, die);
      now' := now[id := if die then Expired(now[id]) else now[id]];
      done' := done + {id};
      if die {
        tracks := tracks - {id};
        kept', cleared' := kept, cleared + [track];
      } else {
        kept', cleared' := kept + [id], cleared;
      }
    }

    /** The comprehension in `clear()`: every track, in dictionary order, is asked `dead()`. */
    method ExpireAll(ghost states: map<int, TrackData>) returns (kept: seq<int>, cleared: seq<Track>)
      requires Valid() && Holds(states)
      modifies this`tracks, tracks.Values
      ensures kept == AliveIds(order, states) && Listed(cleared, DeadIds(order, states), old(tracks))
      ensures forall id :: id in tracks <==> id in old(tracks) && states[id].servalTime > 0
      ensures forall id :: id in tracks ==> tracks[id] == old(tracks)[id]
      ensures forall id :: id in old(tracks) ==>
        old(tracks)[id].Data() == if id in tracks then states[id] else Expired(states[id])
    {
      ghost var tr0 := tracks;
      ghost var done: set<int> := {};
      ghost var now := states;
      kept := [];
      cleared := [];
      var i := 0;
      while i < |order|
        invariant tr0 == old(tracks) && forall id :: id in order ==> id in tr0
        invariant HoldsIn(tr0, now) && Clearing(states, tr0, order, i, done, now, kept, cleared, tracks)
      {
        done, now, kept, cleared := Expire(states, tr0, order, i, done, now, kept, cleared);
        i := i + 1;
      }
      ClearingDone(states, tr0, order, done, now, kept, cleared, tracks);
    }

    /** `clear()`: removes and returns the expired tracks, in dictionary order. */
    method Clear() returns (cleared: seq<Track>, ghost dead: seq<int>)
      requires Valid()
      modifies this`tracks, this`order, tracks.Values
      ensures Valid()
      ensures counter == old(counter) && displayList == old(displayList)
      ensures dead == DeadIds(old(order), old(States()))
      ensures order == AliveIds(old(order), old(States()))
      ensures Listed(cleared, dead, old(tracks))
      ensures forall id :: id in tracks <==> id in old(tracks) && old(States())[id].servalTime > 0
      ensures forall id :: id in tracks ==> tracks[id] == old(tracks)[id]
      ensures forall id :: id in old(tracks) ==>
        old(tracks)[id].Data() == if id in tracks then old(States())[id] else Expired(old(States())[id])
    {
      ghost var states := States();
      assert Holds(states);
      var kept;
      kept, cleared := ExpireAll(states);
      ClearWellFormed(counter, order, old(tracks), tracks, states);
      dead := DeadIds(order, states);
      order := kept;
    }

    /** `display_tracks()`: copies of the tracks matched this frame that have more than two detections. */
    function DisplayTracks(): (r: seq<TrackData>)
      reads this, set k | 0 <= k < |displayList| :: displayList[k]
      ensures forall d :: d in r ==> CountOnes(d.detectionSequence) > 2
      ensures forall k :: 0 <= k < |displayList| && displayList[k].Display() ==> displayList[k].Data() in r
    {
      Shown(displayList)
    }
  }
}
