/** The decision logic of the LDP compass tools (ldp-compass.tools.ts): the
    deep-work block allocator, the schedule-anchor nudger with its bed-time
    variance rules, and the weekly reflection of a 12-week cycle. */
module LdpCompass {
  import opened Common

  // ------------------------------------------------------ block allocator

  const UndefinedBlock := "Undefined block"

  /** The allocation table: blocks 1-3 core work, 4 outreach, 5 reflection,
      anything else undefined. */
  function Allocation(blockNum: int): (r: string)
    ensures 1 <= blockNum <= 5 <==> r != UndefinedBlock
  {
    if blockNum == 1 then "AI/Core Work (highest focus)"
    else if blockNum == 2 then "Contract/Core Work (sustained focus)"
    else if blockNum == 3 then "Core Work wrap-up (final push)"
    else if blockNum == 4 then "Outreach/Communication (lighter cognitive load)"
    else if blockNum == 5 then "Personal Growth/Reflection (flexible, optional)"
    else UndefinedBlock
  }

  /** Which planning hint a block gets. */
  datatype Tier = PeakHours | PostCore | OptionalBlock

  function TierOf(blockNum: int): Tier
  {
    if blockNum <= 3 then PeakHours else if blockNum == 4 then PostCore else OptionalBlock
  }

  function HintText(t: Tier): string
  {
    match t
    case PeakHours => " Peak hours—tackle hardest work."
    case PostCore => " Post-core energy—ideal for connections."
    case OptionalBlock => " Optional block—invest in future self."
  }

  /** The energy band of a completion log. */
  datatype EnergyBand = Strong | Steady | Low

  function BandOf(energy: int): EnergyBand
  {
    if energy >= 7 then Strong else if energy >= 4 then Steady else Low
  }

  function BandLevel(b: EnergyBand): nat
  {
    match b
    case Low => 0
    case Steady => 1
    case Strong => 2
  }

  /** More energy never lands in a lower band, and the bands cut at 4 and 7. */
  lemma BandsAreOrdered(e: int, e': int)
    requires e <= e'
    ensures BandLevel(BandOf(e)) <= BandLevel(BandOf(e'))
    ensures BandOf(e) == Steady <==> 4 <= e < 7
  {
  }

  function EnergyNote(energy: int): string
  {
    match BandOf(energy)
    case Strong => "+" + IntToString(energy) + " energy—strong momentum. Carry to next block."
    case Steady => IntToString(energy) + "/10 energy—steady. 5pm walk will help."
    case Low => IntToString(energy) + "/10 energy—low. Prioritize recovery, check sleep quality."
  }

  /** What the block allocator returns. */
  datatype BlockReport = BlockReport(allocation: string, reasoning: string, energyNote: Option<string>)

  /** `task ? ...`: a task is mentioned only when it is a non-empty string. */
  predicate TaskGiven(task: Option<string>)
  {
    task.Some? && task.value != ""
  }

  /** `if (energy)`: an energy of 0 is as good as none. */
  predicate EnergyGiven(energy: Option<int>)
  {
    energy.Some? && energy.value != 0
  }

  function PlanHeader(blockNum: int): string
  {
    "Block " + IntToString(blockNum) + " typically reserved for " + Allocation(blockNum)
      + ". Align with 50yr vision."
  }

  function CompletionLine(blockNum: int, task: Option<string>): string
  {
    "Block " + IntToString(blockNum) + " completed"
      + (if TaskGiven(task) then ": " + task.value else "") + "."
  }

  /** blockAllocatorTool: in planning mode, the block's allocation and the
      hint of its tier; in completion mode, the completion line and, when an
      energy level is given, the note of its band. */
  method AllocateBlock(blockNum: int, task: Option<string>, energy: Option<int>, isPlanning: bool)
    returns (r: BlockReport)
    ensures r.allocation == Allocation(blockNum)
    ensures isPlanning ==> r.reasoning == PlanHeader(blockNum) + HintText(TierOf(blockNum))
    ensures isPlanning ==> r.energyNote == None
    ensures !isPlanning ==> r.reasoning == CompletionLine(blockNum, task)
    ensures r.energyNote.Some? <==> !isPlanning && EnergyGiven(energy)
    ensures r.energyNote.Some? ==> r.energyNote.value == EnergyNote(energy.value)
  {
    var allocation := Allocation(blockNum);
    var reasoning := "";
    var energyNote: Option<string> := None;
    if isPlanning {
      reasoning := "Block " + IntToString(blockNum) + " typically reserved for " + allocation
        + ". Align with 50yr vision.";
      if blockNum <= 3 {
        reasoning := reasoning + " Peak hours—tackle hardest work.";
      } else if blockNum == 4 {
        reasoning := reasoning + " Post-core energy—ideal for connections.";
      } else {
        reasoning := reasoning + " Optional block—invest in future self.";
      }
    } else {
      reasoning := "Block " + IntToString(blockNum) + " completed"
        + (if task.Some? && task.value != "" then ": " + task.value else "") + ".";
      if energy.Some? && energy.value != 0 {
        var e := energy.value;
        if e >= 7 {
          energyNote := Some("+" + IntToString(e) + " energy—strong momentum. Carry to next block.");
        } else if e >= 4 {
          energyNote := Some(IntToString(e) + "/10 energy—steady. 5pm walk will help.");
        } else {
          energyNote := Some(IntToString(e) + "/10 energy—low. Prioritize recovery, check sleep quality.");
        }
      }
    }
    r := BlockReport(allocation, reasoning, energyNote);
  }

  // ------------------------------------------------------- clock times

  /** parseTimeToMinutes: split "HH:MM" at ':' and count minutes since
      midnight. `Number` reads a piece of decimal digits as its value (the
      empty piece as 0) and any other piece as NaN; a missing minutes piece
      is NaN too, and NaN, written None, spreads to the result. */
  function ParseTimeToMinutes(time: string): Option<int>
  {
    var parts := Split(time, ':');
    if |parts| >= 2 && AllDigits(parts[0]) && AllDigits(parts[1])
    then Some(ParseDigits(parts[0]) * 60 + ParseDigits(parts[1]))
    else None
  }

  const TargetBed := "22:30"

  lemma SplitTime(hs: string, ms: string)
    requires AllDigits(hs) && AllDigits(ms)
    ensures Split(hs + ":" + ms, ':') == [hs, ms]
  {
    NonDigitNotIn(hs, ':');
    NonDigitNotIn(ms, ':');
    assert hs + ":" + ms == hs + [':'] + ms;
    SplitFirst(hs, ms, ':');
    SplitNoSep(ms, ':');
  }

  /** Printing hours and minutes as digits and parsing the result gives
      hours * 60 + minutes back. */
  lemma ParseTimeOfDigits(hs: string, ms: string)
    requires AllDigits(hs) && AllDigits(ms)
    ensures ParseTimeToMinutes(hs + ":" + ms) == Some(ParseDigits(hs) * 60 + ParseDigits(ms))
  {
    SplitTime(hs, ms);
    ParseTimeOfPieces(hs + ":" + ms, hs, ms);
  }

  lemma ParseTimeOfPieces(time: string, hs: string, ms: string)
    requires AllDigits(hs) && AllDigits(ms)
    requires Split(time, ':') == [hs, ms]
    ensures ParseTimeToMinutes(time) == Some(ParseDigits(hs) * 60 + ParseDigits(ms))
  {
    var parts := Split(time, ':');
    assert parts[0] == hs;
    assert parts[1] == ms;
    assert |parts| >= 2;
    assert AllDigits(parts[0]);
    assert AllDigits(parts[1]);
    assert ParseTimeToMinutes(time).Some?;
  }

  lemma ParseTimeRoundTrip(hours: nat, minutes: nat)
    ensures ParseTimeToMinutes(NatToString(hours) + ":" + NatToString(minutes))
      == Some(hours * 60 + minutes)
  {
    ParseTimeOfDigits(NatToString(hours), NatToString(minutes));
    ParseNatToString(hours);
    ParseNatToString(minutes);
  }

  const TargetMinutes := 22 * 60 + 30

  /** The bed-time target is 1350 minutes after midnight. */
  lemma TargetBedMinutes()
    ensures ParseTimeToMinutes(TargetBed) == Some(TargetMinutes) && TargetMinutes == 1350
  {
    ParseTimeRoundTrip(22, 30);
    assert NatToString(22) + ":" + NatToString(30) == TargetBed;
  }

  /** A time without a ':' has no minutes piece and reads as NaN. */
  lemma ParseTimeWithoutColon(time: string)
    requires ':' !in time
    ensures ParseTimeToMinutes(time) == None
  {
    SplitNoSep(time, ':');
  }

  // -------------------------------------------------------- sleep rules

  /** The nudge the sleep rules select; LateBed carries the whole hours. */
  datatype SleepAdvice = Optimal | LowQuality | LateBed(hours: int) | EarlyBed | NoAdvice

  function Abs(x: int): nat { if x < 0 then -x else x }

  /** The sleep rules in priority order, on the variance of the bed time
      from the target (None when the bed time does not parse: NaN fails
      every comparison). */
  function AdviseSleep(quality: int, variance: Option<int>): (r: SleepAdvice)
    ensures r == Optimal <==> quality >= 7 && variance.Some? && Abs(variance.value) <= 30
    ensures r == LowQuality <==> quality < 5
    ensures r.LateBed? ==>
      && quality >= 5 && variance.Some? && variance.value > 30
      && 0 <= r.hours && r.hours * 60 <= variance.value < r.hours * 60 + 60
    ensures r == EarlyBed ==> quality >= 5 && variance.Some? && variance.value < -30
    ensures r == NoAdvice <==>
      && quality >= 5
      && (variance.None? || -30 <= variance.value <= 30)
      && !(quality >= 7 && variance.Some?)
  {
    match variance
    case None =>
      if quality < 5 then LowQuality else NoAdvice
    case Some(v) =>
      if quality >= 7 && Abs(v) <= 30 then Optimal
      else if quality < 5 then LowQuality
      else if v > 30 then LateBed(v / 60)
      else if v < -30 then EarlyBed
      else NoAdvice
  }

  /** Late by 31 to 59 minutes is reported as "0h late". */
  lemma LateByLessThanAnHour(quality: int, v: int)
    requires quality >= 5 && 30 < v < 60
    ensures AdviseSleep(quality, Some(v)) == LateBed(0)
  {
  }

  /** An early night is never optimal, whatever the quality. */
  lemma EarlyNightIsNotOptimal(quality: int, v: int)
    requires v < -30
    ensures AdviseSleep(quality, Some(v)) == (if quality < 5 then LowQuality else EarlyBed)
  {
  }

  // ------------------------------------------------------ anchor nudger

  datatype Anchor = Exercise | Boys | Sleep | Check

  /** The status line of a report. */
  datatype AnchorStatus =
    | ExerciseDone | ExerciseMissed | ExerciseAhead
    | BoysDone | BoysMissed | BoysScheduled
    | NightLogged(quality: int, bedTime: string)
    | SleepTarget
    | AnchorCheck

  /** The nudge of a report; Advice carries the sleep rule that fired. */
  datatype AnchorNudge =
    | WalkLogged | SetWalkAlarm | PrepWalk
    | ConnectionHeld | Reschedule | FullAttention
    | Advice(advice: SleepAdvice)
    | TrackSleep
    | ListAnchors

  /** The pattern a sleep report observes. */
  datatype SleepPattern = ConsistentBedTime | LateBlocksOrSkippedExercise

  datatype AnchorReport = AnchorReport(status: AnchorStatus, nudge: Option<AnchorNudge>, pattern: Option<SleepPattern>)

  function StatusText(s: AnchorStatus): string
  {
    match s
    case ExerciseDone => "5pm exercise: ✓ Complete"
    case ExerciseMissed => "5pm exercise: ✗ Missed"
    case ExerciseAhead => "5pm exercise approaching"
    case BoysDone => "8pm boys time: ✓ Complete"
    case BoysMissed => "8pm boys time: ✗ Missed"
    case BoysScheduled => "8pm boys time: 30min scheduled"
    case NightLogged(q, bed) => "Sleep: " + IntToString(q) + "/10 quality, bed at " + bed
    case SleepTarget => "Sleep target: 10:30pm bed, 7am wake (8.5hr)"
    case AnchorCheck => "Anchor check"
  }

  function NudgeText(n: AnchorNudge): string
  {
    match n
    case WalkLogged => "Energy boost logged. Notice the post-walk clarity in Block 4?"
    case SetWalkAlarm => "Tomorrow: Set 4:55pm alarm. Walk = Block 4 fuel."
    case PrepWalk => "Prep: Shoes ready. 20min walk = +2 energy for evening blocks."
    case ConnectionHeld => "Connection anchor held. Relationship pillar stable."
    case Reschedule => "Reschedule or note reason. Consistency = trust."
    case FullAttention => "Presence over productivity. Full attention."
    case Advice(Optimal) => "Optimal sleep. 8.5hr protocol working. Repeat tonight."
    case Advice(LowQuality) => "Low quality. Check: screen time after 9pm? Room temp? Stress?"
    case Advice(LateBed(h)) => "Bed " + IntToString(h) + "h late. Tomorrow: 10:30pm hard stop."
    case Advice(EarlyBed) => "Early bed but low quality—check sleep environment."
    case Advice(NoAdvice) => ""
    case TrackSleep => "Track tonight: Bed time + quality (1-10) tomorrow morning."
    case ListAnchors => "Today's anchors: 5pm exercise? 8pm boys? 10:30pm bed?"
  }

  function PatternText(p: SleepPattern): string
  {
    match p
    case ConsistentBedTime => "Consistent bed time = high quality sleep."
    case LateBlocksOrSkippedExercise => "Sleep <5 often follows late blocks or skipped exercise."
  }

  /** `if (sleepQuality && bedTime)`: both given, non-zero and non-empty. */
  predicate SleepLogged(sleepQuality: Option<int>, bedTime: Option<string>)
  {
    sleepQuality.Some? && sleepQuality.value != 0 && bedTime.Some? && bedTime.value != ""
  }

  /** The variance of a bed time from the 22:30 target, in minutes. */
  function Variance(bedTime: string): Option<int>
  {
    match ParseTimeToMinutes(bedTime)
    case Some(actual) => Some(actual - TargetMinutes)
    case None => None
  }

  /** The sleep rules of a logged night as the anchor nudger applies them,
      in priority order, leaving nudge and pattern unset when none applies;
      only an optimal or a low-quality night shows a pattern. */
  method AdviseNight(quality: int, variance: Option<int>)
    returns (nudge: Option<AnchorNudge>, pattern: Option<SleepPattern>)
    ensures AdviseSleep(quality, variance) == NoAdvice <==> nudge.None?
    ensures nudge.Some? ==> nudge.value == Advice(AdviseSleep(quality, variance))
    ensures pattern == (match AdviseSleep(quality, variance)
                        case Optimal => Some(ConsistentBedTime)
                        case LowQuality => Some(LateBlocksOrSkippedExercise)
                        case _ => None)
  {
    nudge := None;
    pattern := None;
    if quality >= 7 && variance.Some? && Abs(variance.value) <= 30 {
      nudge := Some(Advice(Optimal));
      pattern := Some(ConsistentBedTime);
    } else if quality < 5 {
      nudge := Some(Advice(LowQuality));
      pattern := Some(LateBlocksOrSkippedExercise);
    } else if variance.Some? && variance.value > 30 {
      nudge := Some(Advice(LateBed(variance.value / 60)));
    } else if variance.Some? && variance.value < -30 {
      nudge := Some(Advice(EarlyBed));
    }
  }

  /** anchorNudgerTool: the exercise and boys anchors report on `completed`
      (true, false or not given); the sleep anchor applies the sleep rules
      to a logged night, or states the target; the check lists the anchors.
      Every report but a logged night with no rule firing carries a nudge,
      and only a logged night can carry a pattern. */
  method NudgeAnchor(anchor: Anchor, completed: Option<bool>, sleepQuality: Option<int>,
                     bedTime: Option<string>)
    returns (r: AnchorReport)
    ensures anchor != Sleep ==> r.nudge.Some? && r.pattern.None?
    ensures anchor == Exercise ==>
      r.status == (if completed == Some(true) then ExerciseDone
                   else if completed == Some(false) then ExerciseMissed
                   else ExerciseAhead)
    ensures anchor == Exercise ==>
      r.nudge == Some(if completed == Some(true) then WalkLogged
                      else if completed == Some(false) then SetWalkAlarm
                      else PrepWalk)
    ensures anchor == Boys ==>
      r.status == (if completed == Some(true) then BoysDone
                   else if completed == Some(false) then BoysMissed
                   else BoysScheduled)
    ensures anchor == Boys ==>
      r.nudge == Some(if completed == Some(true) then ConnectionHeld
                      else if completed == Some(false) then Reschedule
                      else FullAttention)
    ensures anchor == Sleep && SleepLogged(sleepQuality, bedTime) ==>
      var advice := AdviseSleep(sleepQuality.value, Variance(bedTime.value));
      && r.status == NightLogged(sleepQuality.value, bedTime.value)
      && (r.nudge.None? <==> advice == NoAdvice)
      && (r.nudge.Some? ==> r.nudge.value == Advice(advice))
      && r.pattern == (match advice
                       case Optimal => Some(ConsistentBedTime)
                       case LowQuality => Some(LateBlocksOrSkippedExercise)
                       case _ => None)
    ensures anchor == Sleep && !SleepLogged(sleepQuality, bedTime) ==>
      r == AnchorReport(SleepTarget, Some(TrackSleep), None)
    ensures anchor == Check ==> r == AnchorReport(AnchorCheck, Some(ListAnchors), None)
  {
    var status := AnchorCheck;
    var nudge: Option<AnchorNudge> := None;
    var pattern: Option<SleepPattern> := None;
    if anchor == Exercise {
      if completed == Some(true) {
        status := ExerciseDone;
        nudge := Some(WalkLogged);
      } else if completed == Some(false) {
        status := ExerciseMissed;
        nudge := Some(SetWalkAlarm);
      } else {
        status := ExerciseAhead;
        nudge := Some(PrepWalk);
      }
    } else if anchor == Boys {
      if completed == Some(true) {
        status := BoysDone;
        nudge := Some(ConnectionHeld);
      } else if completed == Some(false) {
        status := BoysMissed;
        nudge := Some(Reschedule);
      } else {
        status := BoysScheduled;
        nudge := Some(FullAttention);
      }
    } else if anchor == Sleep {
      if sleepQuality.Some? && sleepQuality.value != 0 && bedTime.Some? && bedTime.value != "" {
        var quality := sleepQuality.value;
        var variance := Variance(bedTime.value);
        status := NightLogged(quality, bedTime.value);
        nudge, pattern := AdviseNight(quality, variance);
      } else {
        status := SleepTarget;
        nudge := Some(TrackSleep);
      }
    } else {
      status := AnchorCheck;
      nudge := Some(ListAnchors);
    }
    r := AnchorReport(status, nudge, pattern);
  }

  // -------------------------------------------------- weekly reflection

  /** A JavaScript number as it prints: its whole part and the digits after
      the decimal point (none for a whole number, no trailing zero). */
  datatype Numeral = Numeral(whole: nat, fraction: string)

  type Decimal = n: Numeral | AllDigits(n.fraction) && (n.fraction == [] || n.fraction[|n.fraction| - 1] != '0')
    witness Numeral(0, "")

  function Pow10(k: nat): (r: nat)
    ensures r >= 1
  {
    if k == 0 then 1 else 10 * Pow10(k - 1)
  }

  function Value(n: Decimal): real
  {
    n.whole as real + ParseDigits(n.fraction) as real / Pow10(|n.fraction|) as real
  }

  function Render(n: Decimal): string
  {
    NatToString(n.whole) + (if n.fraction == [] then "" else "." + n.fraction)
  }

  lemma {:induction false} DigitsBelowPow10(s: string)
    requires AllDigits(s)
    ensures ParseDigits(s) < Pow10(|s|)
    decreases |s|
  {
    if s != [] {
      DigitsBelowPow10(s[..|s| - 1]);
    }
  }

  lemma FractionBelowOne(p: nat, q: nat)
    requires p < q
    ensures 0.0 <= p as real / q as real < 1.0
  {
    var f := p as real / q as real;
    assert f * q as real == p as real;
  }

  /** `n >= k` for a decimal `n` and a whole number `k`. */
  predicate AtLeast(n: Decimal, k: nat)
  {
    n.whole >= k
  }

  /** The fraction is below one, so comparing a decimal with a whole
      threshold is comparing its whole part. */
  lemma ValueBands(n: Decimal, k: nat)
    ensures AtLeast(n, k) <==> Value(n) >= k as real
  {
    DigitsBelowPow10(n.fraction);
    FractionBelowOne(ParseDigits(n.fraction), Pow10(|n.fraction|));
  }

  const TargetBlocks: nat := 4 * 7

  /** A win of the week, tagged with the figure its text reports. */
  datatype Win =
    | StrongExecution(blocks: int)
    | SolidFoundation(blocks: int)
    | OptimalEnergy(avgEnergy: Decimal)
    | ExerciseRoutine(exercise: nat)
    | SleepRoutine(sleep: nat)
    | ShowingUp

  /** An adjustment for next week, tagged with the figure its text reports. */
  datatype Adjustment =
    | DailyBlockTarget
    | FewBlocks(blocks: int)
    | LowEnergy(avgEnergy: Decimal)
    | ExerciseReminder(exercise: nat)
    | SleepWindDown(sleep: nat)
    | KeepProtocol

  predicate IsBlockAdjustment(a: Adjustment)
  {
    a == DailyBlockTarget || a.FewBlocks?
  }

  predicate IsBlockWin(w: Win)
  {
    w.StrongExecution? || w.SolidFoundation?
  }

  /** The first sentence of an adjustment's text. */
  function AdjustmentHeadline(a: Adjustment): string
  {
    match a
    case DailyBlockTarget => "Target: 4 blocks daily"
    case FewBlocks(b) => "Only " + IntToString(b) + "/28 blocks" // 28 == TargetBlocks
    case LowEnergy(e) => "Low energy (" + Render(e) + "/10)"
    case ExerciseReminder(n) => "Exercise: " + NatToString(n) + "/7"
    case SleepWindDown(n) => "Sleep: " + NatToString(n) + "/7"
    case KeepProtocol => "Keep current protocol."
  }

  /** The rest of an adjustment's text, after its first sentence. */
  function AdjustmentAdvice(a: Adjustment): string
  {
    match a
    case DailyBlockTarget => "Identify friction points."
    case FewBlocks(_) => "Review: What blocked momentum?"
    case LowEnergy(_) => "Check: Sleep? Exercise? Block quality?"
    case ExerciseReminder(_) => "Tie to Block 4 reminder."
    case SleepWindDown(_) => "Review 10:30pm wind-down."
    case KeepProtocol => ""
  }

  /** The text of an adjustment: its headline, ". ", and its advice. */
  function AdjustmentText(a: Adjustment): string
  {
    if a == KeepProtocol then AdjustmentHeadline(a)
    else AdjustmentHeadline(a) + ". " + AdjustmentAdvice(a)
  }

  /** `s.split('.')[0]`: the text before the first full stop. */
  function BeforeFirstDot(s: string): string
  {
    Split(s, '.')[0]
  }

  /** The text before the first sentence end ". ", or all of it. */
  function Headline(s: string): string
    decreases |s|
  {
    if |s| < 2 then s
    else if s[0] == '.' && s[1] == ' ' then ""
    else [s[0]] + Headline(s[1..])
  }

  predicate NoSentenceEnd(h: string)
  {
    forall i :: 0 <= i < |h| - 1 ==> !(h[i] == '.' && h[i + 1] == ' ')
  }

  lemma NoDotNoSentenceEnd(h: string)
    requires '.' !in h
    ensures NoSentenceEnd(h)
  {
    forall i | 0 <= i < |h| - 1 ensures h[i] != '.' {
      assert h[i] in h;
    }
  }

  lemma NoSentenceEndAppend(a: string, b: string)
    requires NoSentenceEnd(a) && ' ' !in b
    ensures NoSentenceEnd(a + b)
  {
    forall i | 0 <= i < |a + b| - 1 ensures !((a + b)[i] == '.' && (a + b)[i + 1] == ' ') {
      if i + 1 >= |a| {
        assert (a + b)[i + 1] == b[i + 1 - |a|];
        assert b[i + 1 - |a|] in b;
      }
    }
  }

  lemma {:induction false} HeadlineOfSentence(h: string, rest: string)
    requires NoSentenceEnd(h)
    ensures Headline(h + ". " + rest) == h
    decreases |h|
  {
    var s := h + ". " + rest;
    if h == [] {
      assert s[0] == '.' && s[1] == ' ';
    } else {
      assert s[0] == h[0];
      assert s[1..] == h[1..] + ". " + rest;
      assert NoSentenceEnd(h[1..]) by {
        forall i | 0 <= i < |h[1..]| - 1 ensures !(h[1..][i] == '.' && h[1..][i + 1] == ' ') {
          assert h[1..][i] == h[i + 1] && h[1..][i + 1] == h[i + 2];
        }
      }
      HeadlineOfSentence(h[1..], rest);
      if |h| == 1 {
        assert s[1] == '.';
      } else {
        assert !(h[0] == '.' && h[1] == ' ');
      }
      assert [h[0]] + h[1..] == h;
    }
  }

  /** A headline built from words and numerals has no sentence end in it. */
  lemma HeadlineHasNoSentenceEnd(a: Adjustment)
    requires a != KeepProtocol
    ensures NoSentenceEnd(AdjustmentHeadline(a))
  {
    match a
    case DailyBlockTarget =>
      NoDotNoSentenceEnd(AdjustmentHeadline(a));
    case FewBlocks(b) =>
      IntToStringHasNo(b, '.');
      NoDotNoSentenceEnd(AdjustmentHeadline(a));
    case LowEnergy(e) =>
      NonDigitNotIn(NatToString(e.whole), ' ');
      NonDigitNotIn(e.fraction, ' ');
      NoDotNoSentenceEnd("Low energy (");
      NoSentenceEndAppend("Low energy (", Render(e));
      NoSentenceEndAppend("Low energy (" + Render(e), "/10)");
    case ExerciseReminder(n) =>
      NonDigitNotIn(NatToString(n), '.');
      NoDotNoSentenceEnd(AdjustmentHeadline(a));
    case SleepWindDown(n) =>
      NonDigitNotIn(NatToString(n), '.');
      NoDotNoSentenceEnd(AdjustmentHeadline(a));
  }

  /** Cutting at the first sentence end recovers every headline. */
  lemma FocusNamesFirstSentence(a: Adjustment)
    requires a != KeepProtocol
    ensures Headline(AdjustmentText(a)) == AdjustmentHeadline(a)
  {
    HeadlineHasNoSentenceEnd(a);
    HeadlineOfSentence(AdjustmentHeadline(a), AdjustmentAdvice(a));
  }

  /** Text whose first '.' follows `head` is cut right after `head`. */
  lemma BeforeFirstDotOf(head: string, tail: string)
    requires '.' !in head
    ensures BeforeFirstDot(head + ['.'] + tail) == head
  {
    SplitFirst(head, tail, '.');
  }

  lemma LowEnergyTextAtPoint(e: Decimal)
    requires e.fraction != []
    ensures AdjustmentText(LowEnergy(e))
      == ("Low energy (" + NatToString(e.whole)) + ['.']
         + (e.fraction + "/10)" + ". " + AdjustmentAdvice(LowEnergy(e)))
  {
    var w := NatToString(e.whole);
    var adv := AdjustmentAdvice(LowEnergy(e));
    assert Render(e) == w + ['.'] + e.fraction;
    calc {
      AdjustmentText(LowEnergy(e));
      "Low energy (" + (w + ['.'] + e.fraction) + "/10)" + ". " + adv;
      ("Low energy (" + w) + ['.'] + (e.fraction + "/10)" + ". " + adv);
    }
  }

  /** As written, cutting at the first '.' drops the fraction of a
      fractional average energy and everything after it, so the focus no
      longer names the first sentence. */
  lemma FocusCutsFraction(e: Decimal)
    requires e.fraction != []
    ensures BeforeFirstDot(AdjustmentText(LowEnergy(e))) == "Low energy (" + NatToString(e.whole)
    ensures BeforeFirstDot(AdjustmentText(LowEnergy(e))) != Headline(AdjustmentText(LowEnergy(e)))
  {
    NonDigitNotIn(NatToString(e.whole), '.');
    LowEnergyTextAtPoint(e);
    BeforeFirstDotOf("Low energy (" + NatToString(e.whole),
                     e.fraction + "/10)" + ". " + AdjustmentAdvice(LowEnergy(e)));
    FocusNamesFirstSentence(LowEnergy(e));
    assert |AdjustmentHeadline(LowEnergy(e))| > |"Low energy (" + NatToString(e.whole)|;
  }

  /** An average energy of 4.5 gives the focus "Fix: Low energy (4". */
  lemma FocusCutsFractionalEnergy(e: Decimal)
    requires e == Numeral(4, "5")
    ensures BeforeFirstDot(AdjustmentText(LowEnergy(e))) == "Low energy (4"
  {
    FocusCutsFraction(e);
    assert NatToString(e.whole) == "4";
  }

  /** The headline of an adjustment with whole-number figures has no '.'. */
  lemma WholeHeadlineHasNoDot(a: Adjustment)
    requires a != KeepProtocol
    requires a.LowEnergy? ==> a.avgEnergy.fraction == []
    ensures '.' !in AdjustmentHeadline(a)
  {
    match a {
      case DailyBlockTarget =>
      case FewBlocks(b) =>
        IntToStringHasNo(b, '.');
        NoDotAround("Only ", IntToString(b), "/28 blocks");
      case LowEnergy(e) =>
        NonDigitNotIn(NatToString(e.whole), '.');
        NoDotAround("Low energy (", NatToString(e.whole), "/10)");
      case ExerciseReminder(n) =>
        NonDigitNotIn(NatToString(n), '.');
        NoDotAround("Exercise: ", NatToString(n), "/7");
      case SleepWindDown(n) =>
        NonDigitNotIn(NatToString(n), '.');
        NoDotAround("Sleep: ", NatToString(n), "/7");
    }
  }

  lemma NoDotAround(pre: string, figure: string, post: string)
    requires '.' !in pre && '.' !in figure && '.' !in post
    ensures '.' !in pre + figure + post
  {
  }

  lemma AdjustmentTextAtStop(a: Adjustment)
    requires a != KeepProtocol
    ensures AdjustmentText(a) == AdjustmentHeadline(a) + ['.'] + (" " + AdjustmentAdvice(a))
  {
  }

  /** With whole-number figures the two cuts agree. */
  lemma CutsAgreeOnWholeNumbers(a: Adjustment)
    requires a != KeepProtocol
    requires a.LowEnergy? ==> a.avgEnergy.fraction == []
    ensures BeforeFirstDot(AdjustmentText(a)) == Headline(AdjustmentText(a))
  {
    FocusNamesFirstSentence(a);
    WholeHeadlineHasNoDot(a);
    AdjustmentTextAtStop(a);
    BeforeFirstDotOf(AdjustmentHeadline(a), " " + AdjustmentAdvice(a));
  }

  const MaintainMomentum := "Maintain momentum, increase Block 5 frequency."

  /** The focus for next week: fix the first adjustment, or keep the
      momentum when nothing needs adjusting. */
  datatype Focus = Fix(first: Adjustment) | KeepMomentum

  function NextWeekFocus(adjustments: seq<Adjustment>): (f: Focus)
    ensures f == KeepMomentum <==> adjustments == []
  {
    if |adjustments| > 0 then Fix(adjustments[0]) else KeepMomentum
  }

  /** The focus line: "Fix: " and the first sentence of the adjustment, or
      the momentum line. This is the corrected focus: the source cuts the
      adjustment at its first '.', which differs only when the average
      energy has a fraction (FocusCutsFraction). */
  function FocusText(f: Focus): (t: string)
    ensures f.Fix? ==> |t| >= 5 && t[..5] == "Fix: "
    ensures f == KeepMomentum ==> t == MaintainMomentum
  {
    match f
    case Fix(a) => "Fix: " + AdjustmentHeadline(a)
    case KeepMomentum => MaintainMomentum
  }

  /** The focus on an adjustment names its first sentence; with
      whole-number figures that is also the source's cut at the first '.'. */
  lemma FocusTextNamesFirstSentence(a: Adjustment)
    requires a != KeepProtocol
    ensures FocusText(Fix(a)) == "Fix: " + Headline(AdjustmentText(a))
    ensures (a.LowEnergy? ==> a.avgEnergy.fraction == []) ==>
      FocusText(Fix(a)) == "Fix: " + BeforeFirstDot(AdjustmentText(a))
  {
    FocusNamesFirstSentence(a);
    if a.LowEnergy? ==> a.avgEnergy.fraction == [] {
      CutsAgreeOnWholeNumbers(a);
    }
  }

  /** `blocksCompleted / 28 * 100 >= pct`, in exact arithmetic. */
  predicate CompletionAtLeast(blocks: int, pct: nat)
  {
    blocks * 100 >= pct * TargetBlocks
  }

  /** The integer test is the percentage test. */
  lemma CompletionIsPercentage(blocks: int, pct: nat)
    ensures CompletionAtLeast(blocks, pct) <==> blocks as real / 28.0 * 100.0 >= pct as real
  {
  }

  datatype Reflection = Reflection(wins: seq<Win>, adjustments: seq<Adjustment>, nextWeekFocus: Focus)

  function BlockWins(blocks: int): seq<Win>
  {
    if CompletionAtLeast(blocks, 80) then [StrongExecution(blocks)]
    else if CompletionAtLeast(blocks, 60) then [SolidFoundation(blocks)]
    else []
  }

  function BlockAdjustments(blocks: int): seq<Adjustment>
  {
    if CompletionAtLeast(blocks, 80) then []
    else if CompletionAtLeast(blocks, 60) then [DailyBlockTarget]
    else [FewBlocks(blocks)]
  }

  function EnergyWins(avgEnergy: Decimal): seq<Win>
  {
    if AtLeast(avgEnergy, 7) then [OptimalEnergy(avgEnergy)] else []
  }

  function EnergyAdjustments(avgEnergy: Decimal): seq<Adjustment>
  {
    if AtLeast(avgEnergy, 7) then []
    else if !AtLeast(avgEnergy, 5) then [LowEnergy(avgEnergy)]
    else []
  }

  function AnchorWins(exercise: nat, sleep: nat): seq<Win>
  {
    (if exercise >= 5 then [ExerciseRoutine(exercise)] else [])
      + (if sleep >= 5 then [SleepRoutine(sleep)] else [])
  }

  function AnchorAdjustments(exercise: nat, sleep: nat): seq<Adjustment>
  {
    (if exercise >= 5 then [] else [ExerciseReminder(exercise)])
      + (if sleep >= 5 then [] else [SleepWindDown(sleep)])
  }

  /** The wins and adjustments the rules push, in rule order, before the
      fallbacks. */
  function RawWins(blocks: int, avgEnergy: Decimal, exercise: nat, sleep: nat): seq<Win>
  {
    BlockWins(blocks) + EnergyWins(avgEnergy) + AnchorWins(exercise, sleep)
  }

  function RawAdjustments(blocks: int, avgEnergy: Decimal, exercise: nat, sleep: nat): seq<Adjustment>
  {
    BlockAdjustments(blocks) + EnergyAdjustments(avgEnergy) + AnchorAdjustments(exercise, sleep)
  }

  /** The weekly reflection the rules specify. */
  function Reflect(blocks: int, avgEnergy: Decimal, exercise: nat, sleep: nat): Reflection
  {
    var wins := RawWins(blocks, avgEnergy, exercise, sleep);
    var adjustments := RawAdjustments(blocks, avgEnergy, exercise, sleep);
    Reflection(
      if |wins| > 0 then wins else [ShowingUp],
      if |adjustments| > 0 then adjustments else [KeepProtocol],
      NextWeekFocus(adjustments))
  }

  /** Block analysis: a strong or solid week is a win, anything short of
      80% an adjustment. */
  method PushBlockNotes(blocks: int, wins: seq<Win>, adjustments: seq<Adjustment>)
    returns (wins': seq<Win>, adjustments': seq<Adjustment>)
    ensures wins' == wins + BlockWins(blocks)
    ensures adjustments' == adjustments + BlockAdjustments(blocks)
  {
    wins', adjustments' := wins, adjustments;
    if blocks as real / 28.0 * 100.0 >= 80.0 {
      CompletionIsPercentage(blocks, 80);
      wins' := wins' + [StrongExecution(blocks)];
    } else if blocks as real / 28.0 * 100.0 >= 60.0 {
      CompletionIsPercentage(blocks, 80);
      CompletionIsPercentage(blocks, 60);
      wins' := wins' + [SolidFoundation(blocks)];
      adjustments' := adjustments' + [DailyBlockTarget];
    } else {
      CompletionIsPercentage(blocks, 80);
      CompletionIsPercentage(blocks, 60);
      adjustments' := adjustments' + [FewBlocks(blocks)];
    }
  }

  /** Energy analysis: an average of 7 or more is a win, below 5 an
      adjustment, in between neither. */
  method PushEnergyNotes(avgEnergy: Decimal, wins: seq<Win>, adjustments: seq<Adjustment>)
    returns (wins': seq<Win>, adjustments': seq<Adjustment>)
    ensures wins' == wins + EnergyWins(avgEnergy)
    ensures adjustments' == adjustments + EnergyAdjustments(avgEnergy)
  {
    wins', adjustments' := wins, adjustments;
    ValueBands(avgEnergy, 7);
    ValueBands(avgEnergy, 5);
    if Value(avgEnergy) >= 7.0 {
      wins' := wins' + [OptimalEnergy(avgEnergy)];
    } else if Value(avgEnergy) < 5.0 {
      adjustments' := adjustments' + [LowEnergy(avgEnergy)];
    }
  }

  /** Anchor analysis: five or more exercise (sleep) anchors of seven is a
      win, fewer an adjustment. */
  method PushAnchorNotes(exercise: nat, sleep: nat, wins: seq<Win>, adjustments: seq<Adjustment>)
    returns (wins': seq<Win>, adjustments': seq<Adjustment>)
    ensures wins' == wins + AnchorWins(exercise, sleep)
    ensures adjustments' == adjustments + AnchorAdjustments(exercise, sleep)
  {
    wins', adjustments' := wins, adjustments;
    if exercise >= 5 {
      wins' := wins' + [ExerciseRoutine(exercise)];
    } else {
      adjustments' := adjustments' + [ExerciseReminder(exercise)];
    }
    if sleep >= 5 {
      wins' := wins' + [SleepRoutine(sleep)];
    } else {
      adjustments' := adjustments' + [SleepWindDown(sleep)];
    }
  }

  /** weeklyReflectionTool: push a win or an adjustment per rule, derive the
      focus from the first adjustment, then fall back to the encouragement
      and keep-protocol notes when a list stayed empty. */
  method WeeklyReflection(blocksCompleted: int, avgEnergy: Decimal, exercise: nat, sleep: nat)
    returns (r: Reflection)
    ensures r == Reflect(blocksCompleted, avgEnergy, exercise, sleep)
  {
    var wins: seq<Win> := [];
    var adjustments: seq<Adjustment> := [];
    wins, adjustments := PushBlockNotes(blocksCompleted, wins, adjustments);
    wins, adjustments := PushEnergyNotes(avgEnergy, wins, adjustments);
    wins, adjustments := PushAnchorNotes(exercise, sleep, wins, adjustments);
    assert [] + BlockWins(blocksCompleted) == BlockWins(blocksCompleted);
    assert [] + BlockAdjustments(blocksCompleted) == BlockAdjustments(blocksCompleted);
    var focus := NextWeekFocus(adjustments);
    r := Reflection(
      if |wins| > 0 then wins else [ShowingUp],
      if |adjustments| > 0 then adjustments else [KeepProtocol],
      focus);
  }

  /** Both lists always hold at least one note. */
  lemma ReflectionNeverEmpty(blocks: int, avgEnergy: Decimal, exercise: nat, sleep: nat)
    ensures |Reflect(blocks, avgEnergy, exercise, sleep).wins| >= 1
    ensures |Reflect(blocks, avgEnergy, exercise, sleep).adjustments| >= 1
  {
  }

  lemma OnlyBlockRulesAdjustBlocks(avgEnergy: Decimal, exercise: nat, sleep: nat)
    ensures var a := EnergyAdjustments(avgEnergy) + AnchorAdjustments(exercise, sleep);
      forall k :: 0 <= k < |a| ==> !IsBlockAdjustment(a[k])
  {
  }

  /** A week at 80% of the block target or more: the strong-execution win
      comes first and no adjustment is about blocks. */
  lemma StrongWeekRule(blocks: int, avgEnergy: Decimal, exercise: nat, sleep: nat)
    requires CompletionAtLeast(blocks, 80)
    ensures var r := Reflect(blocks, avgEnergy, exercise, sleep);
      && r.wins[0] == StrongExecution(blocks)
      && forall k :: 0 <= k < |r.adjustments| ==> !IsBlockAdjustment(r.adjustments[k])
  {
    var a := RawAdjustments(blocks, avgEnergy, exercise, sleep);
    assert a == EnergyAdjustments(avgEnergy) + AnchorAdjustments(exercise, sleep);
    OnlyBlockRulesAdjustBlocks(avgEnergy, exercise, sleep);
  }

  /** A week at 60% to 80%: the solid-foundation win and the daily-target
      adjustment both come first. */
  lemma SolidWeekRule(blocks: int, avgEnergy: Decimal, exercise: nat, sleep: nat)
    requires CompletionAtLeast(blocks, 60) && !CompletionAtLeast(blocks, 80)
    ensures var r := Reflect(blocks, avgEnergy, exercise, sleep);
      r.wins[0] == SolidFoundation(blocks) && r.adjustments[0] == DailyBlockTarget
  {
  }

  /** A week below 60%: the few-blocks adjustment comes first and no win is
      about blocks. */
  lemma WeakWeekRule(blocks: int, avgEnergy: Decimal, exercise: nat, sleep: nat)
    requires !CompletionAtLeast(blocks, 60)
    ensures var r := Reflect(blocks, avgEnergy, exercise, sleep);
      && r.adjustments[0] == FewBlocks(blocks)
      && forall k :: 0 <= k < |r.wins| ==> !IsBlockWin(r.wins[k])
  {
    var w := RawWins(blocks, avgEnergy, exercise, sleep);
    assert w == EnergyWins(avgEnergy) + AnchorWins(exercise, sleep);
    forall k | 0 <= k < |w| ensures !IsBlockWin(w[k]) {
      assert w[k] in EnergyWins(avgEnergy) + AnchorWins(exercise, sleep);
    }
  }

  /** Energy: an average of 7 or more is a win, below 5 an adjustment; the
      bands only look at the whole part of the average. */
  lemma EnergyRule(blocks: int, avgEnergy: Decimal, exercise: nat, sleep: nat)
    ensures var r := Reflect(blocks, avgEnergy, exercise, sleep);
      && (OptimalEnergy(avgEnergy) in r.wins <==> Value(avgEnergy) >= 7.0)
      && (LowEnergy(avgEnergy) in r.adjustments <==> Value(avgEnergy) < 5.0)
  {
    ValueBands(avgEnergy, 7);
    ValueBands(avgEnergy, 5);
    var w := RawWins(blocks, avgEnergy, exercise, sleep);
    var a := RawAdjustments(blocks, avgEnergy, exercise, sleep);
    assert OptimalEnergy(avgEnergy) in w <==> OptimalEnergy(avgEnergy) in EnergyWins(avgEnergy);
    assert LowEnergy(avgEnergy) in a <==> LowEnergy(avgEnergy) in EnergyAdjustments(avgEnergy);
  }

  /** Exercise anchors: five or more of seven is a win, fewer an
      adjustment. */
  lemma ExerciseRule(blocks: int, avgEnergy: Decimal, exercise: nat, sleep: nat)
    ensures var r := Reflect(blocks, avgEnergy, exercise, sleep);
      && (ExerciseRoutine(exercise) in r.wins <==> exercise >= 5)
      && (ExerciseReminder(exercise) in r.adjustments <==> exercise < 5)
  {
    var w := RawWins(blocks, avgEnergy, exercise, sleep);
    var a := RawAdjustments(blocks, avgEnergy, exercise, sleep);
    assert ExerciseRoutine(exercise) !in BlockWins(blocks) + EnergyWins(avgEnergy);
    assert ExerciseRoutine(exercise) in w <==> ExerciseRoutine(exercise) in AnchorWins(exercise, sleep);
    assert ExerciseReminder(exercise) !in BlockAdjustments(blocks) + EnergyAdjustments(avgEnergy);
    assert ExerciseReminder(exercise) in a <==> ExerciseReminder(exercise) in AnchorAdjustments(exercise, sleep);
  }

  /** Sleep anchors: five or more of seven is a win, fewer an adjustment. */
  lemma SleepRule(blocks: int, avgEnergy: Decimal, exercise: nat, sleep: nat)
    ensures var r := Reflect(blocks, avgEnergy, exercise, sleep);
      && (SleepRoutine(sleep) in r.wins <==> sleep >= 5)
      && (SleepWindDown(sleep) in r.adjustments <==> sleep < 5)
  {
    var w := RawWins(blocks, avgEnergy, exercise, sleep);
    var a := RawAdjustments(blocks, avgEnergy, exercise, sleep);
    assert SleepRoutine(sleep) !in BlockWins(blocks) + EnergyWins(avgEnergy);
    assert SleepRoutine(sleep) in w <==> SleepRoutine(sleep) in AnchorWins(exercise, sleep);
    assert SleepWindDown(sleep) !in BlockAdjustments(blocks) + EnergyAdjustments(avgEnergy);
    assert SleepWindDown(sleep) in a <==> SleepWindDown(sleep) in AnchorAdjustments(exercise, sleep);
  }

  /** The encouragement win appears exactly when no rule pushed a win. */
  lemma WinsFallbackRule(blocks: int, avgEnergy: Decimal, exercise: nat, sleep: nat)
    ensures Reflect(blocks, avgEnergy, exercise, sleep).wins == [ShowingUp] <==>
      !CompletionAtLeast(blocks, 60) && !AtLeast(avgEnergy, 7) && exercise < 5 && sleep < 5
  {
    var w := RawWins(blocks, avgEnergy, exercise, sleep);
    assert |w| == |BlockWins(blocks)| + |EnergyWins(avgEnergy)| + |AnchorWins(exercise, sleep)|;
    assert ShowingUp !in w;
  }

  /** The keep-protocol note appears exactly when no rule pushed an
      adjustment. */
  lemma AdjustmentsFallbackRule(blocks: int, avgEnergy: Decimal, exercise: nat, sleep: nat)
    ensures Reflect(blocks, avgEnergy, exercise, sleep).adjustments == [KeepProtocol] <==>
      CompletionAtLeast(blocks, 80) && AtLeast(avgEnergy, 5) && exercise >= 5 && sleep >= 5
  {
    var a := RawAdjustments(blocks, avgEnergy, exercise, sleep);
    assert |a| == |BlockAdjustments(blocks)| + |EnergyAdjustments(avgEnergy)| + |AnchorAdjustments(exercise, sleep)|;
    assert KeepProtocol !in a;
  }

  /** The focus fixes the first adjustment a rule pushed, and keeps the
      momentum exactly when the keep-protocol note stands alone. */
  lemma FocusRule(blocks: int, avgEnergy: Decimal, exercise: nat, sleep: nat)
    ensures var r := Reflect(blocks, avgEnergy, exercise, sleep);
      && (r.adjustments == [KeepProtocol] <==> r.nextWeekFocus == KeepMomentum)
      && (r.adjustments != [KeepProtocol] ==> r.nextWeekFocus == Fix(r.adjustments[0]))
  {
    var a := RawAdjustments(blocks, avgEnergy, exercise, sleep);
    assert KeepProtocol !in a;
  }
}
