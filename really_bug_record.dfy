/**
 * The counters of big_microfauna/really_bug_record.py: every expired record that passes its
 * class's realness test is counted under its name, and its report, area, aliveness and colour
 * are filed in the containers the main program hands over.
 */
module BugRecord {
  import opened Common
  import opened LargeBug
  import ReallyBug

  /** The seven names of `BUG_NAMES`: a large class, or the small organisms. */
  datatype Name = Big(cls: Label) | SmallProtozoa

  /** The list `message()` returns: the first frame, then the remaining values as text. */
  datatype Report = Report(firstFrame: int, fields: seq<string>)

  /**
   * What the species constructor `bug_type(abstract_bug)` computes from the screenshot: the
   * aliveness, the mean area, the path of the saved colour image (Ar only) and the report.
   */
  datatype Outcome = Outcome(alive: Vitality, area: real, colorPath: string, report: Report)

  /**
   * An entry of the list handed to `allocation`: an expired large record with the outcome of
   * its species constructor (None when that constructor raises), or an expired small track
   * with the verdict of its own `detect()` and its report.
   */
  datatype Item = LargeItem(data: BugData, built: Option<Outcome>) | SmallItem(detected: bool, report: Report)

  /** The counters and containers of a `ReallyBugRecord`. */
  datatype RecordState = RecordState(
    numbers: map<Name, int>,
    deadOrLive: map<Label, map<Vitality, int>>,
    records: map<Name, seq<Report>>,
    gsAreas: seq<real>,
    arColors: seq<string>)

  /** The state after some items, and whether an exception left `allocation` early. */
  datatype Step = Step(state: RecordState, raised: bool)

  const NAMES: set<Name> := {Big(Gs), Big(Mo), Big(Do), Big(Eu), Big(Ne), Big(Ar), SmallProtozoa}

  /** Every name is one of `BUG_NAMES`. */
  lemma NameListed(n: Name)
    ensures n in NAMES
  {
    match n
    case SmallProtozoa =>
    case Big(l) =>
      match l
      case Gs =>
      case Mo =>
      case Do =>
      case Eu =>
      case Ne =>
      case Ar =>
  }

  /** Every class is one of the six. */
  lemma LabelListed(l: Label)
    ensures l in {Gs, Mo, Do, Eu, Ne, Ar}
  {
    match l
    case Gs =>
    case Mo =>
    case Do =>
    case Eu =>
    case Ne =>
    case Ar =>
  }

  lemma AllNamesListed()
    ensures forall n: Name :: n in NAMES
  {
    forall n: Name ensures n in NAMES {
      NameListed(n);
    }
  }

  /** Every name has a counter and a report list; every class but Gs has a live and a die tally. */
  ghost predicate WellFormed(st: RecordState)
  {
    && (forall n: Name :: n in st.numbers && n in st.records)
    && (forall l: Label :: l != Gs ==> l in st.deadOrLive && Live in st.deadOrLive[l] && Die in st.deadOrLive[l])
  }

  /** The records of class `l` filed as alive or dead. */
  function Tallied(st: RecordState, l: Label): int
    requires WellFormed(st) && l != Gs
  {
    st.deadOrLive[l][Live] + st.deadOrLive[l][Die]
  }

  /**
   * From `a` to `b` every counter grew as much as its report list, the Gs areas and the Ar
   * colour paths as much as the Gs and Ar reports, and every live/die tally as much as its
   * class's reports.
   */
  ghost predicate Lockstep(a: RecordState, b: RecordState)
    requires WellFormed(a) && WellFormed(b)
  {
    && (forall n: Name :: b.numbers[n] - a.numbers[n] == |b.records[n]| - |a.records[n]|)
    && |b.gsAreas| - |a.gsAreas| == |b.records[Big(Gs)]| - |a.records[Big(Gs)]|
    && |b.arColors| - |a.arColors| == |b.records[Big(Ar)]| - |a.records[Big(Ar)]|
    && (forall l: Label :: l != Gs ==> Tallied(b, l) - Tallied(a, l) == |b.records[Big(l)]| - |a.records[Big(l)]|)
  }

  /** Nothing is ever taken back: counters and tallies only rise, lists only grow at the end. */
  ghost predicate Grows(a: RecordState, b: RecordState)
    requires WellFormed(a) && WellFormed(b)
  {
    && (forall n: Name :: a.numbers[n] <= b.numbers[n] && a.records[n] <= b.records[n])
    && a.gsAreas <= b.gsAreas && a.arColors <= b.arColors
    && (forall l: Label :: l != Gs ==> a.deadOrLive[l][Live] <= b.deadOrLive[l][Live] && a.deadOrLive[l][Die] <= b.deadOrLive[l][Die])
  }

  /**
   * `cls()` of a large record: the majority label; None when that call raises (an empty
   * vote dictionary) or gives a name `class_map` does not hold (an unknown class code).
   */
  function ClsOf(d: BugData): (r: Option<Label>)
    ensures |d.clsDict| == 0 ==> r == None
    ensures |d.clsDict| > 0 ==> r == Majority(d.clsDict)
  {
    if |d.clsDict| == 0 then None else Majority(d.clsDict)
  }

  /** One more record counted under `n`. */
  function Counted(st: RecordState, n: Name): RecordState
    requires WellFormed(st)
  {
    st.(numbers := st.numbers[n := st.numbers[n] + 1])
  }

  /** One more report filed under `n`. */
  function Filed(st: RecordState, n: Name, r: Report): RecordState
    requires WellFormed(st)
  {
    st.(records := st.records[n := st.records[n] + [r]])
  }

  /** One more record tallied under aliveness `v`. */
  function Bump(m: map<Vitality, int>, v: Vitality): (r: map<Vitality, int>)
    requires Live in m && Die in m
    ensures r.Keys == m.Keys && r[v] == m[v] + 1
    ensures forall w :: w in m && w != v ==> r[w] == m[w]
  {
    if v.Live? then m[Live := m[Live] + 1] else m[Die := m[Die] + 1]
  }

  /**
   * What a passing large record of class `l` files once counted: its area (Gs) or one more
   * tally under its aliveness (the others), then its report, then its colour path (Ar).
   */
  function FileLarge(st: RecordState, l: Label, o: Outcome): (r: RecordState)
    requires WellFormed(st)
    ensures WellFormed(r)
  {
    var kept := if l == Gs then st.(gsAreas := st.gsAreas + [o.area])
                else st.(deadOrLive := st.deadOrLive[l := Bump(st.deadOrLive[l], o.alive)]);
    var filed := Filed(kept, Big(l), o.report);
    if l == Ar then filed.(arColors := filed.arColors + [o.colorPath]) else filed
  }

  /**
   * One pass of the `allocation` loop. A small track is counted and reported iff its
   * `detect()` holds. A large record whose class cannot be named raises; one that fails its
   * class's `detect` changes nothing; one that passes is counted, and then raises if its
   * species constructor does (always for Ne and Eu); otherwise its area (Gs) or its
   * aliveness (the others) is filed, then its report, then its colour path (Ar).
   */
  function AllocateOne(config: map<Label, ReallyBug.Thresholds>, st: RecordState, item: Item): (r: Step)
    requires ReallyBug.Configured(config) && WellFormed(st)
    ensures WellFormed(r.state)
    ensures r.raised ==> item.LargeItem?
  {
    match item
    case SmallItem(detected, report) =>
      if detected then Step(Filed(Counted(st, SmallProtozoa), SmallProtozoa, report), false) else Step(st, false)
    case LargeItem(data, built) =>
      match ClsOf(data)
      case None => Step(st, true)
      case Some(l) =>
        if !ReallyBug.Passes(config, l, data.detectionSequence) then Step(st, false)
        else
          var counted := Counted(st, Big(l));
          if l == Ne || l == Eu || built.None? then Step(counted, true)
          else Step(FileLarge(counted, l, built.value), false)
  }

  /** `allocation(bug_list)`: the items in order, until one raises; the rest are never looked at. */
  function Allocated(config: map<Label, ReallyBug.Thresholds>, st: RecordState, items: seq<Item>): (r: Step)
    requires ReallyBug.Configured(config) && WellFormed(st)
    ensures WellFormed(r.state)
    decreases |items|
  {
    if items == [] then Step(st, false)
    else
      var p := Allocated(config, st, items[..|items| - 1]);
      if p.raised then p else AllocateOne(config, p.state, items[|items| - 1])
  }

  /** One pass takes nothing back, and when it does not raise it keeps the counters and lists in step. */
  lemma OneBookkeeping(config: map<Label, ReallyBug.Thresholds>, st: RecordState, item: Item)
    requires ReallyBug.Configured(config) && WellFormed(st)
    ensures Grows(st, AllocateOne(config, st, item).state)
    ensures !AllocateOne(config, st, item).raised ==> Lockstep(st, AllocateOne(config, st, item).state)
  {
    match item
    case SmallItem(detected, report) =>
      if detected {
        SmallInStep(st, report);
      }
    case LargeItem(data, built) =>
      if ClsOf(data).Some? {
        var l := ClsOf(data).value;
        if ReallyBug.Passes(config, l, data.detectionSequence) {
          if l == Ne || l == Eu || built.None? {
            CountedGrows(st, Big(l));
          } else {
            LargeGrows(st, l, built.value);
            if l == Gs {
              GsInStep(st, built.value);
            } else {
              TallyInStep(st, l, built.value);
            }
          }
        }
      }
  }

  /** Counting alone takes nothing back. */
  lemma CountedGrows(st: RecordState, n: Name)
    requires WellFormed(st)
    ensures WellFormed(Counted(st, n)) && Grows(st, Counted(st, n))
  {
  }

  /** A small track counted and reported keeps everything in step. */
  lemma SmallInStep(st: RecordState, report: Report)
    requires WellFormed(st)
    ensures WellFormed(Filed(Counted(st, SmallProtozoa), SmallProtozoa, report))
    ensures Grows(st, Filed(Counted(st, SmallProtozoa), SmallProtozoa, report))
    ensures Lockstep(st, Filed(Counted(st, SmallProtozoa), SmallProtozoa, report))
  {
  }

  /** Counting under `n` and filing one report there: both grow by one under `n` and nowhere else. */
  lemma NameStep(st: RecordState, n: Name, report: Report)
    requires WellFormed(st)
    ensures WellFormed(Filed(Counted(st, n), n, report))
    ensures var b := Filed(Counted(st, n), n, report);
      forall m: Name :: b.numbers[m] - st.numbers[m] == |b.records[m]| - |st.records[m]| == (if m == n then 1 else 0)
  {
  }

  /** A large record of a class other than Ne and Eu, counted and filed, takes nothing back. */
  lemma LargeGrows(st: RecordState, l: Label, o: Outcome)
    requires WellFormed(st) && l != Ne && l != Eu
    ensures WellFormed(FileLarge(Counted(st, Big(l)), l, o))
    ensures Grows(st, FileLarge(Counted(st, Big(l)), l, o))
  {
    var r := FileLarge(Counted(st, Big(l)), l, o);
    if l != Gs {
      forall k: Label | k != Gs
        ensures st.deadOrLive[k][Live] <= r.deadOrLive[k][Live] && st.deadOrLive[k][Die] <= r.deadOrLive[k][Die]
      {
        if k != l {
          assert r.deadOrLive[k] == st.deadOrLive[k];
        }
      }
    }
  }

  /** A Gs record counted and filed keeps everything in step. */
  lemma GsInStep(st: RecordState, o: Outcome)
    requires WellFormed(st)
    ensures WellFormed(FileLarge(Counted(st, Big(Gs)), Gs, o))
    ensures Lockstep(st, FileLarge(Counted(st, Big(Gs)), Gs, o))
  {
    NameStep(st, Big(Gs), o.report);
  }

  /** A record of Mo, Do or Ar counted and filed keeps everything in step. */
  lemma TallyInStep(st: RecordState, l: Label, o: Outcome)
    requires WellFormed(st) && l != Gs && l != Ne && l != Eu
    ensures WellFormed(FileLarge(Counted(st, Big(l)), l, o))
    ensures Lockstep(st, FileLarge(Counted(st, Big(l)), l, o))
  {
    NameStep(st, Big(l), o.report);
    var r := FileLarge(Counted(st, Big(l)), l, o);
    forall k: Label | k != Gs
      ensures Tallied(r, k) - Tallied(st, k) == |r.records[Big(k)]| - |st.records[Big(k)]|
    {
      if k != l {
        assert r.deadOrLive[k] == st.deadOrLive[k];
      }
    }
  }

  lemma GrowsTrans(a: RecordState, b: RecordState, c: RecordState)
    requires WellFormed(a) && WellFormed(b) && WellFormed(c) && Grows(a, b) && Grows(b, c)
    ensures Grows(a, c)
  {
  }

  lemma LockstepTrans(a: RecordState, b: RecordState, c: RecordState)
    requires WellFormed(a) && WellFormed(b) && WellFormed(c) && Lockstep(a, b) && Lockstep(b, c)
    ensures Lockstep(a, c)
  {
  }

  /**
   * Over a whole call nothing is taken back, and when no exception cut it short every counter
   * rose exactly as much as its report list, and so did the Gs areas, the Ar colour paths and
   * the live/die tallies of their classes.
   */
  lemma {:induction false} AllocatedBookkeeping(config: map<Label, ReallyBug.Thresholds>, st: RecordState, items: seq<Item>)
    requires ReallyBug.Configured(config) && WellFormed(st)
    ensures Grows(st, Allocated(config, st, items).state)
    ensures !Allocated(config, st, items).raised ==> Lockstep(st, Allocated(config, st, items).state)
    decreases |items|
  {
    if items != [] {
      var p := Allocated(config, st, items[..|items| - 1]);
      AllocatedBookkeeping(config, st, items[..|items| - 1]);
      if !p.raised {
        var r := AllocateOne(config, p.state, items[|items| - 1]);
        OneBookkeeping(config, p.state, items[|items| - 1]);
        GrowsTrans(st, p.state, r.state);
        if !r.raised {
          LockstepTrans(st, p.state, r.state);
        }
      }
    }
  }

  /** Once an item has raised, the items after it change nothing. */
  lemma {:induction false} StopsAtRaise(config: map<Label, ReallyBug.Thresholds>, st: RecordState, items: seq<Item>, more: seq<Item>)
    requires ReallyBug.Configured(config) && WellFormed(st) && Allocated(config, st, items).raised
    ensures Allocated(config, st, items + more) == Allocated(config, st, items)
    decreases |more|
  {
    if more == [] {
      assert items + more == items;
    } else {
      var front := more[..|more| - 1];
      assert (items + more)[..|items + more| - 1] == items + front;
      StopsAtRaise(config, st, items, front);
    }
  }

  /** A small track never raises; it is counted and reported iff it passed its own `detect()`. */
  lemma SmallRule(config: map<Label, ReallyBug.Thresholds>, st: RecordState, detected: bool, report: Report)
    requires ReallyBug.Configured(config) && WellFormed(st)
    ensures var r := AllocateOne(config, st, SmallItem(detected, report));
      && !r.raised
      && (detected ==> r.state == st.(numbers := st.numbers[SmallProtozoa := st.numbers[SmallProtozoa] + 1],
                                     records := st.records[SmallProtozoa := st.records[SmallProtozoa] + [report]]))
      && (!detected ==> r.state == st)
  {
  }

  /** A large record that fails its class's `detect`, or whose class cannot be named, changes nothing. */
  lemma LargeRejected(config: map<Label, ReallyBug.Thresholds>, st: RecordState, data: BugData, built: Option<Outcome>)
    requires ReallyBug.Configured(config) && WellFormed(st)
    ensures ClsOf(data).None? ==> AllocateOne(config, st, LargeItem(data, built)) == Step(st, true)
    ensures ClsOf(data).Some? && !ReallyBug.Passes(config, ClsOf(data).value, data.detectionSequence) ==>
      AllocateOne(config, st, LargeItem(data, built)) == Step(st, false)
  {
  }

  /**
   * A passing large record of class `l` is counted under its name. Ne and Eu then always
   * raise, with nothing filed; so does a class whose constructor raised.
   */
  lemma LargeCounted(config: map<Label, ReallyBug.Thresholds>, st: RecordState, data: BugData, built: Option<Outcome>, l: Label)
    requires ReallyBug.Configured(config) && WellFormed(st)
    requires ClsOf(data) == Some(l) && ReallyBug.Passes(config, l, data.detectionSequence)
    ensures AllocateOne(config, st, LargeItem(data, built)).state.numbers == st.numbers[Big(l) := st.numbers[Big(l)] + 1]
    ensures l == Ne || l == Eu || built.None? ==>
      AllocateOne(config, st, LargeItem(data, built)) == Step(st.(numbers := st.numbers[Big(l) := st.numbers[Big(l)] + 1]), true)
  {
  }

  /**
   * A passing Gs record files its area and never touches a live/die tally; a passing record
   * of another class that does not raise adds exactly one to its class's tally under its
   * aliveness; only Ar files a colour path.
   */
  lemma LargeFiled(config: map<Label, ReallyBug.Thresholds>, st: RecordState, data: BugData, o: Outcome, l: Label)
    requires ReallyBug.Configured(config) && WellFormed(st)
    requires ClsOf(data) == Some(l) && ReallyBug.Passes(config, l, data.detectionSequence) && l != Ne && l != Eu
    ensures var r := AllocateOne(config, st, LargeItem(data, Some(o)));
      && !r.raised
      && r.state.records == st.records[Big(l) := st.records[Big(l)] + [o.report]]
      && (l == Gs ==> r.state.gsAreas == st.gsAreas + [o.area] && r.state.deadOrLive == st.deadOrLive)
      && (l != Gs ==> r.state.gsAreas == st.gsAreas &&
                      r.state.deadOrLive == st.deadOrLive[l := Bump(st.deadOrLive[l], o.alive)])
      && (l == Ar ==> r.state.arColors == st.arColors + [o.colorPath])
      && (l != Ar ==> r.state.arColors == st.arColors)
  {
  }

  /** The `bug_dead_or_live` the main program builds: a zero live and die tally for every class but Gs. */
  function FreshDeadOrLive(): (m: map<Label, map<Vitality, int>>)
    ensures m.Keys == {Ar, Do, Mo, Ne, Eu}
    ensures forall l :: l in m ==> m[l] == map[Live := 0, Die := 0]
  {
    map[Ar := map[Die := 0, Live := 0], Do := map[Die := 0, Live := 0], Mo := map[Die := 0, Live := 0],
        Ne := map[Die := 0, Live := 0], Eu := map[Die := 0, Live := 0]]
  }

  /** The `bug_record` dictionary the main program builds: an empty list for every name. */
  function FreshRecords(): (m: map<Name, seq<Report>>)
    ensures forall n: Name :: n in m && m[n] == []
  {
    AllNamesListed();
    map n | n in NAMES :: []
  }

  class ReallyBugRecord {
    var bugNumbers: map<Name, int>
    var deadOrLive: map<Label, map<Vitality, int>>
    var records: map<Name, seq<Report>>
    var gsAreas: seq<real>
    var arColors: seq<string>

    function State(): RecordState
      reads this
    {
      RecordState(bugNumbers, deadOrLive, records, gsAreas, arColors)
    }

    /** The containers are in place: the main program has called the four setters. */
    ghost predicate Valid()
      reads this
    {
      WellFormed(State())
    }

    /** `__init__`: every name counted 0; the containers are set later (None until then). */
    constructor ()
      ensures forall n: Name :: n in bugNumbers && bugNumbers[n] == 0
      ensures deadOrLive == map[] && records == map[] && gsAreas == [] && arColors == []
    {
      bugNumbers := map n | n in NAMES :: 0;
      deadOrLive := map[];
      records := map[];
      gsAreas := [];
      arColors := [];
      AllNamesListed();
    }

    /** `set_bug_dead_or_live`. */
    method SetDeadOrLive(m: map<Label, map<Vitality, int>>)
      modifies this`deadOrLive
      ensures deadOrLive == m
    {
      deadOrLive := m;
    }

    /** `set_bug_record`. */
    method SetRecords(m: map<Name, seq<Report>>)
      modifies this`records
      ensures records == m
    {
      records := m;
    }

    /** `set_gs_area_list`. */
    method SetGsAreas(s: seq<real>)
      modifies this`gsAreas
      ensures gsAreas == s
    {
      gsAreas := s;
    }

    /** `set_ar_colors_list`. */
    method SetArColors(s: seq<string>)
      modifies this`arColors
      ensures arColors == s
    {
      arColors := s;
    }

    /** Files what a passing large record of class `l` files once counted. */
    method File(l: Label, o: Outcome)
      requires Valid()
      modifies this`gsAreas, this`deadOrLive, this`records, this`arColors
      ensures State() == FileLarge(old(State()), l, o)
    {
      if l == Gs {
        gsAreas := gsAreas + [o.area];
      } else {
        deadOrLive := deadOrLive[l := Bump(deadOrLive[l], o.alive)];
      }
      records := records[Big(l) := records[Big(l)] + [o.report]];
      if l == Ar {
        arColors := arColors + [o.colorPath];
      }
    }

    /** One pass of the loop of `allocation` on a large record; `raised` when it ends in an exception. */
    method AllocateLarge(config: map<Label, ReallyBug.Thresholds>, data: BugData, built: Option<Outcome>) returns (raised: bool)
      requires ReallyBug.Configured(config) && Valid()
      modifies this
      ensures Step(State(), raised) == AllocateOne(config, old(State()), LargeItem(data, built))
    {
      raised := false;
      var c := ClsOf(data);
      if c.None? {
        return true;
      }
      var l := c.value;
      var exist := ReallyBug.Detect(config, l, data.detectionSequence);
      if exist {
        bugNumbers := bugNumbers[Big(l) := bugNumbers[Big(l)] + 1];
        if l == Ne || l == Eu || built.None? {
          return true;
        }
        File(l, built.value);
      }
    }

    /** One pass of the loop of `allocation`; `raised` when the pass ends in an exception. */
    method Allocate(config: map<Label, ReallyBug.Thresholds>, item: Item) returns (raised: bool)
      requires ReallyBug.Configured(config) && Valid()
      modifies this
      ensures Step(State(), raised) == AllocateOne(config, old(State()), item)
    {
      match item
      case SmallItem(detected, report) =>
        raised := false;
        if detected {
          bugNumbers := bugNumbers[SmallProtozoa := bugNumbers[SmallProtozoa] + 1];
          records := records[SmallProtozoa := records[SmallProtozoa] + [report]];
        }
      case LargeItem(data, built) =>
        raised := AllocateLarge(config, data, built);
    }

    /**
     * `allocation(bug_list)`: the items in order. An exception leaves the loop at once, with
     * the counter of the item that raised already raised; the caller swallows it.
     */
    method Allocation(config: map<Label, ReallyBug.Thresholds>, items: seq<Item>) returns (raised: bool)
      requires ReallyBug.Configured(config) && Valid()
      modifies this
      ensures Step(State(), raised) == Allocated(config, old(State()), items)
    {
      ghost var st0 := State();
      raised := false;
      var i := 0;
      while i < |items|
        invariant 0 <= i <= |items| && Valid()
        invariant Allocated(config, st0, items[..i]) == Step(State(), false)
      {
        assert items[..i + 1][..i] == items[..i];
        raised := Allocate(config, items[i]);
        if raised {
          assert items[..i + 1] + items[i + 1..] == items;
          StopsAtRaise(config, st0, items[..i + 1], items[i + 1..]);
          return;
        }
        i := i + 1;
      }
      assert items[..i] == items;
    }
  }

  /** The state the main program sets up: every counter and tally 0, every list empty. */
  lemma SetUpWellFormed(numbers: map<Name, int>)
    requires forall n: Name :: n in numbers && numbers[n] == 0
    ensures WellFormed(RecordState(numbers, FreshDeadOrLive(), FreshRecords(), [], []))
  {
    forall l: Label | l != Gs ensures l in FreshDeadOrLive() {
      LabelListed(l);
    }
  }
}
