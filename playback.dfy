/// The playback script embedded in every card (utils/json2html.py, the
/// functions `playAudio`, `playSequentially`, `playIndividualSequence` and its
/// inner `playNext`, and `window.onload`). Four buttons carry a "playing" mark
/// and a disabled flag; one activity at a time is driven by the media events
/// of the element it started.
///
/// The behaviour is specified by functions on a `Snapshot` of that state; the
/// class `Player` performs the same steps on arrays of button flags, with the
/// loops of the script, and is proved to agree with those functions.
module Playback {
  import opened CardBuilder

  /** The buttons, in document order: Play All, Play Word, Play Meaning, Play Phrase. */
  const ButtonCount: nat := 4

  /** The status messages the script reports. */
  const NotAvailable: string := "Audio not available"
  const FinishedAll: string := "Finished playing all"
  const StartingSequence: string := "Starting individual playback..."
  const PlayingSingle: string := "Playing audio..."
  const FinishedSingle: string := "Finished playing"
  const ErrorSingle: string := "Error playing audio"
  const FailedSingle: string := "Failed to play audio"
  const PlayingCombined: string := "Playing complete vocabulary..."
  const FinishedCombined: string := "Finished playing complete vocabulary"
  const Unsupported: string := "Audio not supported in this browser"
  const Loading: string := "Loading audio..."

  /** While a sequence clip plays, or during the 800 ms pause after it ended. */
  datatype Phase = Awaiting | Pausing

  /** The current activity: nothing, one button's clip, the combined clip, the
      individual sequence at a clip index (0 word, 1 meaning, 2 phrase), or the
      finished sequence. */
  datatype Mode =
    | Idle
    | Single(button: nat)
    | CombinedPlaying
    | Sequence(index: nat, phase: Phase)
    | Finished

  /** What the current activity can be told: its play request was accepted
      (`then`) or rejected (`catch`), its element ended or failed, or the pause
      timer fired. */
  datatype Event = Started | Ended | Error | Rejected | PauseElapsed

  /** The observable state: the buttons' "playing" marks and disabled flags,
      the last status message, and the activity. */
  datatype Snapshot = Snapshot(playing: seq<bool>, disabled: seq<bool>, status: string, mode: Mode)

  predicate ModeOk(m: Mode)
  {
    (m.Single? ==> m.button < ButtonCount) && (m.Sequence? ==> m.index < 3)
  }

  predicate Consistent(s: Snapshot)
  {
    |s.playing| == ButtonCount && |s.disabled| == ButtonCount && ModeOk(s.mode)
  }

  /** The ids the sequence plays, in its fixed order. */
  function SequenceId(ids: Ids, i: nat): string
    requires i < 3
  {
    if i == 0 then ids.word else if i == 1 then ids.meaning else ids.phrase
  }

  function Label(i: nat): string
    requires i < 3
  {
    if i == 0 then "word" else if i == 1 then "meaning" else "phrase"
  }

  /** The element a single-clip button plays. */
  function Target(ids: Ids, button: nat): string
    requires 1 <= button < ButtonCount
  {
    SequenceId(ids, button - 1)
  }

  function All(v: bool): seq<bool>
  {
    seq(ButtonCount, _ => v)
  }

  function Only(button: nat): seq<bool>
  {
    seq(ButtonCount, j => j == button)
  }

  /** The first sequence index from `i` on whose element is in the page, or 3. */
  function NextPresent(ids: Ids, present: set<string>, i: nat): (j: nat)
    requires i <= 3
    ensures i <= j <= 3
    ensures j < 3 ==> SequenceId(ids, j) in present
    ensures forall k :: i <= k < j ==> SequenceId(ids, k) !in present
    decreases 3 - i
  {
    if i == 3 then 3
    else if SequenceId(ids, i) in present then i
    else NextPresent(ids, present, i + 1)
  }

  /** The sequence indices from `i` on whose elements are in the page, in order. */
  function PresentFrom(ids: Ids, present: set<string>, i: nat): seq<nat>
    requires i <= 3
    decreases 3 - i
  {
    if i == 3 then []
    else if SequenceId(ids, i) in present then [i] + PresentFrom(ids, present, i + 1)
    else PresentFrom(ids, present, i + 1)
  }

  /** Every index to play from `i` is at least `i` and names an element in the page. */
  lemma {:induction false} PresentFromPresent(ids: Ids, present: set<string>, i: nat)
    requires i <= 3
    ensures forall k :: 0 <= k < |PresentFrom(ids, present, i)| ==>
              i <= PresentFrom(ids, present, i)[k] < 3 && SequenceId(ids, PresentFrom(ids, present, i)[k]) in present
    decreases 3 - i
  {
    if i < 3 {
      PresentFromPresent(ids, present, i + 1);
    }
  }

  /** The indices to play come in increasing order, so each at most once. */
  lemma {:induction false} PresentFromIncreasing(ids: Ids, present: set<string>, i: nat)
    requires i <= 3
    ensures forall k, l :: 0 <= k < l < |PresentFrom(ids, present, i)| ==>
              PresentFrom(ids, present, i)[k] < PresentFrom(ids, present, i)[l]
    decreases 3 - i
  {
    if i < 3 {
      PresentFromPresent(ids, present, i + 1);
      PresentFromIncreasing(ids, present, i + 1);
      var rest := PresentFrom(ids, present, i + 1);
      if SequenceId(ids, i) in present {
        var r := [i] + rest;
        forall k | 1 <= k < |r| ensures r[k] == rest[k - 1] {
        }
      }
    }
  }

  /** Every index from `i` on whose element is in the page is played. */
  lemma {:induction false} PresentFromComplete(ids: Ids, present: set<string>, i: nat)
    requires i <= 3
    ensures forall j :: i <= j < 3 && SequenceId(ids, j) in present ==> j in PresentFrom(ids, present, i)
    decreases 3 - i
  {
    if i < 3 {
      PresentFromComplete(ids, present, i + 1);
      var rest := PresentFrom(ids, present, i + 1);
      if SequenceId(ids, i) in present {
        var r := [i] + rest;
        forall j | i < j < 3 && SequenceId(ids, j) in present ensures j in r {
          var m :| 0 <= m < |rest| && rest[m] == j;
          assert r[m + 1] == j;
        }
        assert r[0] == i;
      }
    }
  }

  /** `playAudio(audioId, button)`: a missing element only reports; otherwise
      every button is reset and only the chosen one is marked and disabled. */
  function AfterPlayAudio(s: Snapshot, present: set<string>, audioId: string, button: nat): (t: Snapshot)
    requires Consistent(s) && button < ButtonCount
    ensures Consistent(t)
    ensures audioId !in present ==> t == s.(status := NotAvailable)
    ensures audioId in present ==>
              t.mode == Single(button) && t.status == s.status &&
              forall j :: 0 <= j < ButtonCount ==> (t.playing[j] <==> j == button) && (t.disabled[j] <==> j == button)
  {
    if audioId in present then Snapshot(Only(button), Only(button), s.status, Single(button))
    else s.(status := NotAvailable)
  }

  /** The end of the sequence: buttons re-enabled, "Finished playing all". */
  function Done(s: Snapshot): Snapshot
  {
    s.(disabled := All(false), status := FinishedAll, mode := Finished)
  }

  /** `playNext` at index `i`: missing elements are passed over at once; the
      next present one is started, or the sequence ends. */
  function AfterPlayNext(s: Snapshot, ids: Ids, present: set<string>, i: nat): (t: Snapshot)
    requires Consistent(s) && i <= 3
    ensures Consistent(t) && t.playing == s.playing
  {
    var j := NextPresent(ids, present, i);
    if j < 3 then s.(status := "Playing " + Label(j) + "...", mode := Sequence(j, Awaiting))
    else Done(s)
  }

  /** `playIndividualSequence`: disable every button, then play from index 0. */
  function AfterStartSequence(s: Snapshot, ids: Ids, present: set<string>): (t: Snapshot)
    requires Consistent(s)
    ensures Consistent(t)
  {
    AfterPlayNext(s.(disabled := All(true), status := StartingSequence), ids, present, 0)
  }

  /** `playSequentially`: the combined clip when its element exists, the sequence otherwise. */
  function AfterPlaySequentially(s: Snapshot, ids: Ids, present: set<string>): (t: Snapshot)
    requires Consistent(s)
    ensures Consistent(t)
  {
    if ids.combined in present then s.(mode := CombinedPlaying)
    else AfterStartSequence(s, ids, present)
  }

  /** A single clip's handlers: clear its button and report. */
  function Release(s: Snapshot, button: nat, message: string): Snapshot
    requires Consistent(s) && button < ButtonCount
  {
    s.(playing := s.playing[button := false], disabled := s.disabled[button := false],
       status := message, mode := Idle)
  }

  /** The handlers the current activity attached, applied to one event. */
  function AfterEvent(s: Snapshot, ids: Ids, present: set<string>, e: Event): (t: Snapshot)
    requires Consistent(s)
    ensures Consistent(t)
  {
    match s.mode
    case Single(b) =>
      (match e
       case Started => s.(status := PlayingSingle)
       case Ended => Release(s, b, FinishedSingle)
       case Error => Release(s, b, ErrorSingle)
       case Rejected => Release(s, b, FailedSingle)
       case PauseElapsed => s)
    case CombinedPlaying =>
      (match e
       case Started => s.(status := PlayingCombined)
       case Ended => s.(status := FinishedCombined, mode := Idle)
       case Error => AfterStartSequence(s, ids, present)
       case Rejected => AfterStartSequence(s, ids, present)
       case PauseElapsed => s)
    case Sequence(i, phase) =>
      if phase == Awaiting then
        (match e
         case Ended => s.(mode := Sequence(i, Pausing))
         case Error => AfterPlayNext(s, ids, present, i + 1)
         case Rejected => AfterPlayNext(s, ids, present, i + 1)
         case _ => s)
      else if e == PauseElapsed then AfterPlayNext(s, ids, present, i + 1)
      else s
    case _ => s
  }

  /** A click on button `button`: a disabled button dispatches no click, so
      its handler does not run. */
  function AfterClick(s: Snapshot, ids: Ids, present: set<string>, button: nat): (t: Snapshot)
    requires Consistent(s) && button < ButtonCount
    ensures Consistent(t)
    ensures s.disabled[button] ==> t == s
  {
    if s.disabled[button] then s
    else if button == 0 then AfterPlaySequentially(s, ids, present)
    else AfterPlayAudio(s, present, Target(ids, button), button)
  }

  /** `window.onload`: report, then (after the autoplay delay) play everything. */
  function AfterLoad(s: Snapshot, ids: Ids, present: set<string>, supported: bool): (t: Snapshot)
    requires Consistent(s)
    ensures Consistent(t)
  {
    if !supported then s.(status := Unsupported)
    else AfterPlaySequentially(s.(status := Loading), ids, present)
  }

  /** A series of events, delivered in order. */
  function Run(s: Snapshot, ids: Ids, present: set<string>, events: seq<Event>): (t: Snapshot)
    requires Consistent(s)
    ensures Consistent(t)
    decreases |events|
  {
    if events == [] then s else Run(AfterEvent(s, ids, present, events[0]), ids, present, events[1..])
  }

  /** How one sequence clip turns out: it ends (then the pause elapses), it
      fails, or its play request is rejected. */
  datatype Outcome = Played | Failed | Refused

  function ClipEvents(out: Outcome): seq<Event>
  {
    match out
    case Played => [Ended, PauseElapsed]
    case Failed => [Error]
    case Refused => [Rejected]
  }

  function Feed(outs: seq<Outcome>): seq<Event>
  {
    if outs == [] then [] else ClipEvents(outs[0]) + Feed(outs[1..])
  }

  lemma {:induction false} RunAppend(s: Snapshot, ids: Ids, present: set<string>, a: seq<Event>, b: seq<Event>)
    requires Consistent(s)
    ensures Run(s, ids, present, a + b) == Run(Run(s, ids, present, a), ids, present, b)
    decreases |a|
  {
    if a == [] {
      assert a + b == b;
    } else {
      assert (a + b)[0] == a[0];
      assert (a + b)[1..] == a[1..] + b;
      RunAppend(AfterEvent(s, ids, present, a[0]), ids, present, a[1..], b);
    }
  }

  lemma FeedPrefix(outs: seq<Outcome>, k: nat)
    requires 0 < k <= |outs|
    ensures Feed(outs[..k]) == ClipEvents(outs[0]) + Feed(outs[1..][..k - 1])
  {
    assert outs[..k][0] == outs[0];
    assert outs[..k][1..] == outs[1..][..k - 1];
  }

  /** `playNext` overwrites the status and the activity, so only the buttons
      of the state it starts from matter. */
  lemma PlayNextIgnoresStatus(s: Snapshot, x: Snapshot, ids: Ids, present: set<string>, i: nat)
    requires Consistent(s) && Consistent(x) && i <= 3
    requires s.playing == x.playing && s.disabled == x.disabled
    ensures AfterPlayNext(s, ids, present, i) == AfterPlayNext(x, ids, present, i)
  {
  }

  /** The indices still to play from `i` are the next present one and those after it. */
  lemma {:induction false} PresentFromSkips(ids: Ids, present: set<string>, i: nat)
    requires i <= 3
    ensures var j := NextPresent(ids, present, i);
            PresentFrom(ids, present, i) == if j < 3 then [j] + PresentFrom(ids, present, j + 1) else []
    decreases 3 - i
  {
    if i < 3 && SequenceId(ids, i) !in present {
      PresentFromSkips(ids, present, i + 1);
    }
  }

  /** Whatever the outcome of the clip at `j`, the sequence moves on to `j + 1`. */
  lemma ClipStep(s: Snapshot, ids: Ids, present: set<string>, j: nat, out: Outcome)
    requires Consistent(s) && j < 3 && s.mode == Sequence(j, Awaiting)
    ensures Run(s, ids, present, ClipEvents(out)) == AfterPlayNext(s, ids, present, j + 1)
  {
    match out
    case Played =>
      var p := s.(mode := Sequence(j, Pausing));
      assert Run(s, ids, present, [Ended, PauseElapsed]) == Run(p, ids, present, [PauseElapsed]);
      PlayNextIgnoresStatus(s, p, ids, present, j + 1);
    case Failed =>
    case Refused =>
  }

  /** From index `i`, with one outcome per present clip, whether each clip
      played, failed or was refused: after the last one the buttons are enabled
      and "Finished playing all" reported. */
  lemma {:induction false} SequenceFinishes(s: Snapshot, ids: Ids, present: set<string>, i: nat,
                                            outs: seq<Outcome>)
    requires Consistent(s) && i <= 3
    requires |outs| == |PresentFrom(ids, present, i)|
    ensures Run(AfterPlayNext(s, ids, present, i), ids, present, Feed(outs)) == Done(s)
    decreases 3 - i
  {
    PresentFromSkips(ids, present, i);
    var j := NextPresent(ids, present, i);
    var t := AfterPlayNext(s, ids, present, i);
    if j < 3 {
      var rest := outs[1..];
      ClipStep(t, ids, present, j, outs[0]);
      PlayNextIgnoresStatus(t, s, ids, present, j + 1);
      SequenceFinishes(s, ids, present, j + 1, rest);
      assert Feed(outs) == ClipEvents(outs[0]) + Feed(rest);
      RunAppend(t, ids, present, ClipEvents(outs[0]), Feed(rest));
    }
  }

  /** ... and before that, the k-th outcome belongs to the k-th present clip in
      word, meaning, phrase order. */
  lemma {:induction false} SequenceVisitsInOrder(s: Snapshot, ids: Ids, present: set<string>, i: nat,
                                                 outs: seq<Outcome>)
    requires Consistent(s) && i <= 3
    requires |outs| == |PresentFrom(ids, present, i)|
    ensures forall k :: 0 <= k < |outs| ==>
              Run(AfterPlayNext(s, ids, present, i), ids, present, Feed(outs[..k])).mode ==
              Sequence(PresentFrom(ids, present, i)[k], Awaiting)
    decreases 3 - i
  {
    PresentFromSkips(ids, present, i);
    var j := NextPresent(ids, present, i);
    var t := AfterPlayNext(s, ids, present, i);
    if j < 3 {
      var rest := outs[1..];
      var next := PresentFrom(ids, present, j + 1);
      assert PresentFrom(ids, present, i) == [j] + next;
      ClipStep(t, ids, present, j, outs[0]);
      PlayNextIgnoresStatus(t, s, ids, present, j + 1);
      SequenceVisitsInOrder(s, ids, present, j + 1, rest);
      forall k | 0 <= k < |outs|
        ensures Run(t, ids, present, Feed(outs[..k])).mode == Sequence(PresentFrom(ids, present, i)[k], Awaiting)
      {
        if k == 0 {
          assert outs[..0] == [];
        } else {
          FeedPrefix(outs, k);
          RunAppend(t, ids, present, ClipEvents(outs[0]), Feed(rest[..k - 1]));
          assert ([j] + next)[k] == next[k - 1];
        }
      }
    }
  }

  /** Play All with a combined clip that fails, or without one: the sequence
      runs over the present clips and ends with every button enabled, the
      "playing" marks as they were, and "Finished playing all". */
  lemma PlayAllFallsBackAndFinishes(s: Snapshot, ids: Ids, present: set<string>,
                                    first: seq<Event>, outs: seq<Outcome>)
    requires Consistent(s)
    requires ids.combined in present ==> first == [Error] || first == [Rejected]
    requires ids.combined !in present ==> first == []
    requires |outs| == |PresentFrom(ids, present, 0)|
    ensures Run(AfterPlaySequentially(s, ids, present), ids, present, first + Feed(outs)) ==
            s.(disabled := All(false), status := FinishedAll, mode := Finished)
  {
    var d := s.(disabled := All(true), status := StartingSequence);
    SequenceFinishes(d, ids, present, 0, outs);
    var c := AfterPlaySequentially(s, ids, present);
    RunAppend(c, ids, present, first, Feed(outs));
    if ids.combined in present {
      assert Run(c, ids, present, first) == AfterStartSequence(c, ids, present);
      PlayNextIgnoresStatus(c.(disabled := All(true), status := StartingSequence), d, ids, present, 0);
    } else {
      assert first + Feed(outs) == Feed(outs);
    }
  }

  /** With all three clips on the page, the fallback visits word, meaning and
      phrase in that order, one transition per clip, and then finishes. */
  lemma ThreeClipsInFixedOrder(s: Snapshot, ids: Ids, present: set<string>, outs: seq<Outcome>)
    requires Consistent(s)
    requires ids.word in present && ids.meaning in present && ids.phrase in present
    requires |outs| == 3
    ensures forall k :: 0 <= k < 3 ==>
              Run(AfterStartSequence(s, ids, present), ids, present, Feed(outs[..k])).mode == Sequence(k, Awaiting)
    ensures Run(AfterStartSequence(s, ids, present), ids, present, Feed(outs)).mode == Finished
  {
    assert PresentFrom(ids, present, 0) == [0, 1, 2];
    var d := s.(disabled := All(true), status := StartingSequence);
    SequenceVisitsInOrder(d, ids, present, 0, outs);
    SequenceFinishes(d, ids, present, 0, outs);
  }

  /** Play Word (or Meaning, Phrase), then the clip ends, fails or is refused:
      back to idle with the matching message, every button enabled and nothing
      marked; no sequence starts. */
  lemma SingleClipReturnsToIdle(s: Snapshot, ids: Ids, present: set<string>, button: nat, e: Event)
    requires Consistent(s) && 1 <= button < ButtonCount && !s.disabled[button] && Target(ids, button) in present
    requires e == Ended || e == Error || e == Rejected
    ensures var t := AfterEvent(AfterClick(s, ids, present, button), ids, present, e);
            t.mode == Idle &&
            t.status == (if e == Ended then FinishedSingle else if e == Error then ErrorSingle else FailedSingle) &&
            forall j :: 0 <= j < ButtonCount ==> !t.playing[j] && !t.disabled[j]
  {
  }

  /** A card without any audio element: each enabled single-clip button only
      reports "Audio not available"; an enabled Play All passes over the three
      missing clips and ends with "Finished playing all" and every button enabled. */
  lemma SilentPageControls(s: Snapshot, ids: Ids, button: nat)
    requires Consistent(s) && button < ButtonCount
    ensures button > 0 && !s.disabled[button] ==> AfterClick(s, ids, {}, button) == s.(status := NotAvailable)
    ensures button == 0 && !s.disabled[button] ==>
              AfterClick(s, ids, {}, button) == s.(disabled := All(false), status := FinishedAll, mode := Finished)
  {
    assert NextPresent(ids, {}, 0) == 3;
  }

  /** While the sequence runs, every button is disabled. */
  predicate Locked(s: Snapshot)
  {
    s.mode.Sequence? ==> s.disabled == All(true)
  }

  /** `playNext` keeps the buttons locked while the sequence goes on. */
  lemma PlayNextLocks(s: Snapshot, ids: Ids, present: set<string>, i: nat)
    requires Consistent(s) && i <= 3 && s.disabled == All(true)
    ensures Locked(AfterPlayNext(s, ids, present, i))
  {
  }

  /** Every handler keeps the buttons locked during the sequence. */
  lemma EventKeepsLocked(s: Snapshot, ids: Ids, present: set<string>, e: Event)
    requires Consistent(s) && Locked(s)
    ensures Locked(AfterEvent(s, ids, present, e))
  {
    match s.mode
    case Single(b) =>
    case CombinedPlaying =>
      PlayNextLocks(s.(disabled := All(true), status := StartingSequence), ids, present, 0);
    case Sequence(i, phase) =>
      PlayNextLocks(s, ids, present, i + 1);
    case Idle =>
    case Finished =>
  }

  /** Every click keeps the buttons locked during the sequence. */
  lemma ClickKeepsLocked(s: Snapshot, ids: Ids, present: set<string>, button: nat)
    requires Consistent(s) && Locked(s) && button < ButtonCount
    ensures Locked(AfterClick(s, ids, present, button))
  {
    PlayNextLocks(s.(disabled := All(true), status := StartingSequence), ids, present, 0);
  }

  /** Loading the page keeps the buttons locked during the sequence. */
  lemma LoadKeepsLocked(s: Snapshot, ids: Ids, present: set<string>, supported: bool)
    requires Consistent(s) && Locked(s)
    ensures Locked(AfterLoad(s, ids, present, supported))
  {
    PlayNextLocks(s.(disabled := All(true), status := StartingSequence), ids, present, 0);
  }

  /** A click while the sequence runs finds its button disabled and changes nothing. */
  lemma ClickIgnoredDuringSequence(s: Snapshot, ids: Ids, present: set<string>, button: nat)
    requires Consistent(s) && Locked(s) && s.mode.Sequence? && button < ButtonCount
    ensures AfterClick(s, ids, present, button) == s
  {
    assert s.disabled[button];
  }

  /** `window.onload`: without audio support it only reports; with it, a
      combined clip that plays ends with "Finished playing complete
      vocabulary", and one that fails, is refused or is missing falls back to
      the sequence, which ends with every button enabled and "Finished playing all". */
  lemma LoadPlaysEverything(s: Snapshot, ids: Ids, present: set<string>,
                            first: seq<Event>, outs: seq<Outcome>)
    requires Consistent(s)
    requires ids.combined in present ==> first == [Error] || first == [Rejected]
    requires ids.combined !in present ==> first == []
    requires |outs| == |PresentFrom(ids, present, 0)|
    ensures AfterLoad(s, ids, present, false) == s.(status := Unsupported)
    ensures ids.combined in present ==>
              Run(AfterLoad(s, ids, present, true), ids, present, [Started, Ended]) ==
              s.(status := FinishedCombined, mode := Idle)
    ensures Run(AfterLoad(s, ids, present, true), ids, present, first + Feed(outs)) ==
            s.(disabled := All(false), status := FinishedAll, mode := Finished)
  {
    PlayAllFallsBackAndFinishes(s.(status := Loading), ids, present, first, outs);
    if ids.combined in present {
      var c := s.(status := Loading, mode := CombinedPlaying);
      assert Run(c, ids, present, [Started, Ended]) == Run(c.(status := PlayingCombined), ids, present, [Ended]);
    }
  }

  /** The script's state inside one card. */
  class Player {
    const ids: Ids
    const present: set<string>
    const playing: array<bool>
    const disabled: array<bool>
    var status: string
    var mode: Mode

    ghost predicate Valid()
      reads this
    {
      playing.Length == ButtonCount && disabled.Length == ButtonCount && playing != disabled && ModeOk(mode)
    }

    ghost function State(): Snapshot
      reads this, playing, disabled
    {
      Snapshot(playing[..], disabled[..], status, mode)
    }

    /** The script of `card`, before anything has happened. */
    constructor (card: Card)
      ensures Valid() && fresh(playing) && fresh(disabled)
      ensures ids == card.ids && present == PresentIds(card)
      ensures State() == Snapshot(All(false), All(false), "", Idle)
    {
      ids := card.ids;
      present := PresentIds(card);
      playing := new bool[ButtonCount](_ => false);
      disabled := new bool[ButtonCount](_ => false);
      status := "";
      mode := Idle;
    }

    /** `updateStatus(message)` (the 2 s clearing timer is not modelled). */
    method UpdateStatus(message: string)
      modifies this`status
      ensures status == message
    {
      status := message;
    }

    /** The reset loop of `playAudio`: every button unmarked and enabled. */
    method ResetButtons()
      requires Valid()
      modifies playing, disabled
      ensures playing[..] == All(false) && disabled[..] == All(false)
    {
      for i := 0 to ButtonCount
        invariant forall j :: 0 <= j < i ==> !playing[j] && !disabled[j]
      {
        playing[i] := false;
        disabled[i] := false;
      }
    }

    /** The loops that disable or re-enable every button around the sequence. */
    method SetAllDisabled(v: bool)
      requires Valid()
      modifies disabled
      ensures disabled[..] == All(v)
    {
      for i := 0 to ButtonCount
        invariant forall j :: 0 <= j < i ==> disabled[j] == v
      {
        disabled[i] := v;
      }
    }

    method PlayAudio(audioId: string, button: nat)
      requires Valid() && button < ButtonCount
      modifies this, playing, disabled
      ensures Valid()
      ensures State() == AfterPlayAudio(old(State()), present, audioId, button)
    {
      if audioId in present {
        ResetButtons();
        playing[button] := true;
        disabled[button] := true;
        mode := Single(button);
        assert playing[..] == Only(button);
        assert disabled[..] == Only(button);
      } else {
        UpdateStatus(NotAvailable);
      }
    }

    /** `playNext` from index `i`; the script recurses after each missing element,
        this loop does the same passes. */
    method PlayNext(i: nat)
      requires Valid() && i <= 3
      modifies this, disabled
      ensures Valid()
      ensures State() == AfterPlayNext(old(State()), ids, present, i)
    {
      var index := i;
      while index < 3 && SequenceId(ids, index) !in present
        invariant i <= index <= 3
        invariant NextPresent(ids, present, index) == NextPresent(ids, present, i)
        decreases 3 - index
      {
        index := index + 1;
      }
      if index < 3 {
        UpdateStatus("Playing " + Label(index) + "...");
        mode := Sequence(index, Awaiting);
      } else {
        SetAllDisabled(false);
        UpdateStatus(FinishedAll);
        mode := Finished;
      }
    }

    method PlayIndividualSequence()
      requires Valid()
      modifies this, disabled
      ensures Valid()
      ensures State() == AfterStartSequence(old(State()), ids, present)
    {
      SetAllDisabled(true);
      UpdateStatus(StartingSequence);
      PlayNext(0);
    }

    method PlaySequentially()
      requires Valid()
      modifies this, disabled
      ensures Valid()
      ensures State() == AfterPlaySequentially(old(State()), ids, present)
    {
      if ids.combined in present {
        mode := CombinedPlaying;
      } else {
        PlayIndividualSequence();
      }
    }

    /** Delivers one event to the handlers of the current activity. */
    method Handle(e: Event)
      requires Valid()
      modifies this, playing, disabled
      ensures Valid()
      ensures State() == AfterEvent(old(State()), ids, present, e)
    {
      match mode
      case Single(b) =>
        if e == Started {
          UpdateStatus(PlayingSingle);
        } else if e != PauseElapsed {
          playing[b] := false;
          disabled[b] := false;
          UpdateStatus(if e == Ended then FinishedSingle
                       else if e == Error then ErrorSingle
                       else FailedSingle);
          mode := Idle;
        }
      case CombinedPlaying =>
        if e == Started {
          UpdateStatus(PlayingCombined);
        } else if e == Ended {
          UpdateStatus(FinishedCombined);
          mode := Idle;
        } else if e == Error || e == Rejected {
          PlayIndividualSequence();
        }
      case Sequence(i, phase) =>
        if phase == Awaiting && e == Ended {
          mode := Sequence(i, Pausing);
        } else if (phase == Awaiting && (e == Error || e == Rejected)) || (phase == Pausing && e == PauseElapsed) {
          PlayNext(i + 1);
        }
      case Idle =>
      case Finished =>
    }

    method Click(button: nat)
      requires Valid() && button < ButtonCount
      modifies this, playing, disabled
      ensures Valid()
      ensures State() == AfterClick(old(State()), ids, present, button)
    {
      if disabled[button] {
        return;
      }
      if button == 0 {
        PlaySequentially();
      } else {
        PlayAudio(Target(ids, button), button);
      }
    }

    method OnLoad(supported: bool)
      requires Valid()
      modifies this, disabled
      ensures Valid()
      ensures State() == AfterLoad(old(State()), ids, present, supported)
    {
      if !supported {
        UpdateStatus(Unsupported);
      } else {
        UpdateStatus(Loading);
        PlaySequentially();
      }
    }
  }
}
