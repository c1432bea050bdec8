/** The product-demo player: a simulated playback clock that advances one
    second per timer tick, the play/pause and restart buttons, the `m:ss`
    time label, and the demo-step timeline. The one-second timer is modelled
    as a `Tick` step taken whenever the timer would fire. */
module DemoPlayback {
  import opened JsNumber
  import opened Optional

  // ---------------------------------------------------------------------------
  // Playback clock

  /** The player's state: elapsed seconds, total seconds, and whether it plays. */
  datatype Player = Player(currentTime: int, duration: int, playing: bool)

  /** Paused at 0 of a two-minute demo. */
  const Initial: Player := Player(0, 120, false)

  /** The clock never leaves [0, duration]. */
  predicate Valid(p: Player) {
    0 < p.duration && 0 <= p.currentTime <= p.duration
  }

  /** Whether the effect has a one-second interval running. */
  predicate Running(p: Player) {
    p.playing && p.currentTime < p.duration
  }

  /** One firing of the interval: one more second, clamped at the duration,
      where playback stops. Without a running interval nothing happens. */
  function Tick(p: Player): (q: Player)
    ensures q.duration == p.duration
    ensures !Running(p) ==> q == p
    ensures Running(p) && p.currentTime + 1 < p.duration ==> q == p.(currentTime := p.currentTime + 1)
    ensures Running(p) && p.currentTime + 1 >= p.duration ==> q.currentTime == p.duration && !q.playing
    ensures Valid(p) ==> Valid(q)
    ensures Valid(p) && Running(p) ==> (Running(q) <==> q.currentTime < q.duration)
  {
    if !Running(p) then p
    else
      var newTime := p.currentTime + 1;
      if newTime >= p.duration then p.(currentTime := p.duration, playing := false)
      else p.(currentTime := newTime)
  }

  /** `n` firings of the interval: the clock never runs backwards, gains at
      most one second per firing, and stays valid. */
  function Ticks(p: Player, n: nat): (q: Player)
    ensures q.duration == p.duration
    ensures p.currentTime <= q.currentTime <= p.currentTime + n
    ensures Valid(p) ==> Valid(q)
    decreases n
  {
    if n == 0 then p else Ticks(Tick(p), n - 1)
  }

  /** The play/pause button. */
  function TogglePlay(p: Player): (q: Player)
    ensures q.playing != p.playing
    ensures q.currentTime == p.currentTime && q.duration == p.duration
    ensures Valid(p) ==> Valid(q)
  {
    p.(playing := !p.playing)
  }

  /** The restart button: back to 0 and paused, whatever came before. */
  function Reset(p: Player): (q: Player)
    ensures q.currentTime == 0 && !q.playing && q.duration == p.duration
    ensures 0 < p.duration ==> Valid(q) && !Running(q)
  {
    p.(currentTime := 0, playing := false)
  }

  /** A running player that is left alone reaches the end after exactly the
      remaining number of seconds, and is then stopped there. */
  lemma {:induction false} PlaysToEnd(p: Player)
    requires Valid(p) && Running(p)
    ensures Ticks(p, p.duration - p.currentTime) == p.(currentTime := p.duration, playing := false)
    decreases p.duration - p.currentTime
  {
    var q := Tick(p);
    if p.currentTime + 1 < p.duration {
      PlaysToEnd(q);
    } else {
      assert Ticks(q, 0) == q;
    }
  }

  /** Once stopped, further ticks change nothing. */
  lemma {:induction false} IdleTicksChangeNothing(p: Player, n: nat)
    requires !Running(p)
    ensures Ticks(p, n) == p
    decreases n
  {
    if n > 0 {
      IdleTicksChangeNothing(Tick(p), n - 1);
    }
  }

  /** From the initial state, pressing play and waiting two minutes ends
      paused at 2:00. */
  lemma FullPlayback()
    ensures Ticks(TogglePlay(Initial), 120) == Player(120, 120, false)
  {
    PlaysToEnd(TogglePlay(Initial));
  }

  /** Pressing play at the end shows "playing" but no interval starts. */
  lemma PlayAtEndDoesNotMove(p: Player)
    requires Valid(p) && p.currentTime == p.duration && !p.playing
    ensures TogglePlay(p).playing && Tick(TogglePlay(p)) == TogglePlay(p)
  {
  }

  /** Width of the progress bar, in percent. */
  function Progress(p: Player): (pct: real)
    requires p.duration > 0
    ensures Valid(p) ==> 0.0 <= pct <= 100.0
    ensures Valid(p) ==> (pct == 100.0 <==> p.currentTime == p.duration)
  {
    (p.currentTime as real / p.duration as real) * 100.0
  }

  // ---------------------------------------------------------------------------
  // Time label

  /** Minutes and seconds of a count of seconds. */
  function SplitTime(seconds: nat): (parts: (nat, nat))
    ensures parts.0 * 60 + parts.1 == seconds && parts.1 < 60
  {
    (seconds / 60, seconds % 60)
  }

  /** `formatTime`: whole minutes, a colon, and the seconds padded to two
      digits. The field before the colon reads as the minutes and the two
      digits after it as the seconds below sixty. */
  function FormatTime(seconds: nat): (text: string)
    ensures |text| >= 4 && text[|text| - 3] == ':'
    ensures AllDigits(text[..|text| - 3]) && AllDigits(text[|text| - 2..])
    ensures ParseDecimal(text[..|text| - 3]) == SplitTime(seconds).0
    ensures ParseDecimal(text[|text| - 2..]) == SplitTime(seconds).1 < 60
  {
    var parts := SplitTime(seconds);
    var mins, secs := DecimalString(parts.0), PadTwo(parts.1);
    var text := mins + ":" + secs;
    assert text[..|text| - 3] == mins;
    assert text[|text| - 2..] == secs;
    ParseDecimalString(parts.0);
    text
  }

  /** Reads an `m:ss` label back into seconds; a seconds field of 60 or more
      is not a label `FormatTime` writes, and is rejected. */
  function ParseTime(text: string): Option<nat> {
    if |text| >= 4 && text[|text| - 3] == ':'
       && AllDigits(text[..|text| - 3]) && AllDigits(text[|text| - 2..])
       && ParseDecimal(text[|text| - 2..]) < 60
    then Some(ParseDecimal(text[..|text| - 3]) * 60 + ParseDecimal(text[|text| - 2..]))
    else None
  }

  /** Every label reads back as the number of seconds it was made from. */
  lemma FormatTimeRoundTrip(seconds: nat)
    ensures ParseTime(FormatTime(seconds)) == Some(seconds)
  {
    var parts := SplitTime(seconds);
    assert parts.0 * 60 + parts.1 == seconds;
  }

  /** Labels whose seconds field is out of range are not read. */
  lemma ParseTimeRejectsSeconds()
    ensures ParseTime("0:99") == None
    ensures ParseTime("1:60") == None
    ensures ParseTime("1:59") == Some(119)
  {
    assert "0:99"[2..] == "99" && "99"[..1] == "9" && "9"[..0] == "";
    assert ParseDecimal("99") == 99;
    assert "1:60"[2..] == "60" && "60"[..1] == "6" && "6"[..0] == "";
    assert ParseDecimal("60") == 60;
    assert "1:59"[..1] == "1" && "1"[..0] == "" && ParseDecimal("1") == 1;
    assert "1:59"[2..] == "59" && "59"[..1] == "5" && "5"[..0] == "";
    assert ParseDecimal("59") == 59;
  }

  /** The labels of the player: two minutes is "2:00". */
  lemma FormatTimeExamples()
    ensures FormatTime(120) == "2:00"
    ensures FormatTime(105) == "1:45"
    ensures FormatTime(0) == "0:00"
  {
    assert DecimalString(2) == "2";
    assert PadTwo(0) == "00";
    assert DecimalString(1) == "1";
    assert DecimalString(45) == "45";
    assert PadTwo(45) == "45";
    assert DecimalString(0) == "0";
  }

  // ---------------------------------------------------------------------------
  // Demo steps

  datatype Step = Step(time: nat, title: string)

  const DemoSteps: seq<Step> := [
    Step(0, "Dashboard Overview"),
    Step(15, "Time Period Filtering"),
    Step(30, "Interactive Charts"),
    Step(45, "Real-time Updates"),
    Step(60, "Custom Metrics"),
    Step(75, "Export & Share"),
    Step(90, "Mobile Responsive"),
    Step(105, "Advanced Analytics")
  ]

  predicate Ascending(steps: seq<Step>) {
    forall i, j :: 0 <= i < j < |steps| ==> steps[i].time < steps[j].time
  }

  lemma DemoStepsAscending()
    ensures Ascending(DemoSteps)
  {
    forall i, j | 0 <= i < j < |DemoSteps|
      ensures DemoSteps[i].time < DemoSteps[j].time
    {
      assert DemoSteps[i].time == 15 * i && DemoSteps[j].time == 15 * j;
    }
  }

  /** A timeline entry is lit once the clock has reached its time. */
  predicate Reached(t: int, s: Step) {
    t >= s.time
  }

  /** `steps.find(step => t >= step.time)`, as an index. */
  function FindReached(steps: seq<Step>, t: int): (r: Option<nat>)
    ensures r.Some? ==> r.value < |steps| && Reached(t, steps[r.value])
    ensures r.Some? ==> forall j :: 0 <= j < r.value ==> !Reached(t, steps[j])
    ensures r.None? ==> forall j :: 0 <= j < |steps| ==> !Reached(t, steps[j])
    decreases |steps|
  {
    if |steps| == 0 then None
    else if Reached(t, steps[0]) then Some(0)
    else match FindReached(steps[1..], t)
      case Some(k) => Some(k + 1)
      case None => None
  }

  /** The step whose title and description the player shows:
      `find(...) || demoSteps[0]`. Because the first step is at time 0, the
      lookup stops at it for every reachable time: the description never
      advances. */
  function CurrentStep(t: int): (s: Step)
    ensures s in DemoSteps
    ensures t >= 0 ==> s == DemoSteps[0]
  {
    assert t >= 0 ==> Reached(t, DemoSteps[0]);
    DemoSteps[FindReached(DemoSteps, t).GetOr(0)]
  }

  /** How many timeline entries are lit at time `t`. */
  function ReachedCount(steps: seq<Step>, t: int): (n: nat)
    ensures n <= |steps|
    decreases |steps|
  {
    if |steps| == 0 then 0
    else (if Reached(t, steps[0]) then 1 else 0) + ReachedCount(steps[1..], t)
  }

  /** On an ascending timeline the lit entries are exactly the first
      `ReachedCount` ones: a prefix. */
  lemma {:induction false} LitStepsFormPrefix(steps: seq<Step>, t: int)
    requires Ascending(steps)
    ensures forall j :: 0 <= j < |steps| ==> (Reached(t, steps[j]) <==> j < ReachedCount(steps, t))
    decreases |steps|
  {
    if |steps| > 0 {
      var rest := steps[1..];
      LitStepsFormPrefix(rest, t);
      if !Reached(t, steps[0]) {
        assert forall j :: 0 <= j < |rest| ==> !Reached(t, rest[j]) by {
          forall j | 0 <= j < |rest| ensures !Reached(t, rest[j]) {
            assert rest[j] == steps[j + 1];
          }
        }
        NoneReached(rest, t);
      }
      forall j | 0 < j < |steps|
        ensures Reached(t, steps[j]) <==> j < ReachedCount(steps, t)
      {
        assert steps[j] == rest[j - 1];
      }
    }
  }

  lemma {:induction false} NoneReached(steps: seq<Step>, t: int)
    requires forall j :: 0 <= j < |steps| ==> !Reached(t, steps[j])
    ensures ReachedCount(steps, t) == 0
    decreases |steps|
  {
    if |steps| > 0 {
      NoneReached(steps[1..], t);
    }
  }

  /** A lit entry implies every earlier entry is lit. */
  lemma LitStepsDownwardClosed(steps: seq<Step>, t: int, i: nat, j: nat)
    requires Ascending(steps) && i < j < |steps| && Reached(t, steps[j])
    ensures Reached(t, steps[i])
  {
    LitStepsFormPrefix(steps, t);
  }

  /** The step the clock is in: the last lit entry, or the first entry before
      anything is lit. */
  function CurrentStepIntended(steps: seq<Step>, t: int): (k: nat)
    requires |steps| > 0
    ensures k < |steps|
  {
    var n := ReachedCount(steps, t);
    if n == 0 then 0 else n - 1
  }

  /** On an ascending timeline starting at 0, the intended step at any
      time `t >= 0` is lit and no later entry is. */
  lemma CurrentStepIntendedIsLatestReached(steps: seq<Step>, t: int)
    requires |steps| > 0 && Ascending(steps) && steps[0].time == 0 && t >= 0
    ensures Reached(t, steps[CurrentStepIntended(steps, t)])
    ensures forall j :: CurrentStepIntended(steps, t) < j < |steps| ==> !Reached(t, steps[j])
  {
    LitStepsFormPrefix(steps, t);
    assert Reached(t, steps[0]);
  }

  /** At 0:50 the timeline lights four entries, up to "Real-time Updates", yet
      the lookup as written still shows "Dashboard Overview". */
  lemma CurrentStepLagsTimeline()
    ensures CurrentStep(50).title == "Dashboard Overview"
    ensures DemoSteps[CurrentStepIntended(DemoSteps, 50)].title == "Real-time Updates"
  {
    DemoStepsAscending();
    LitStepsFormPrefix(DemoSteps, 50);
    assert Reached(50, DemoSteps[3]) && !Reached(50, DemoSteps[4]);
  }
}
