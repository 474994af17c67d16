/**
  Runs of the module as sequences of events, taken one at a time: callbacks
  from the player, wake-ups of the advertiser thread and button presses.
  The lemmas state what the source promises across several handler calls:
  latest-wins coalescing, metadata at most once per track, and status before
  metadata.
 */
module Traces {
  import opened Wrappers
  import opened PlaybackStatus
  import opened Metadata
  import opened Buttons
  import opened Smtc

  datatype Event =
    | InputEvt(code: int, reported: int)  // "intf-event" callback; `reported` is the input's "state" variable
    | TrackChange(next: Option<InputId>)  // "input-current" callback of the playlist
    | Wake(meta: InputId -> Item)         // the advertiser thread wakes; `meta` answers its metadata queries
    | Press(button: Button)               // a transport-control button is pressed

  /**
    One event. A wake-up without a pending advertisement goes back to waiting
    (the wait loop re-tests `advertise`). None when a death event finds no
    input held. The test of `inputState` holds on every state reachable from
    Initial (PendingImpliesWritten).
   */
  function Apply(s: Sys, e: Event): Option<Sys>
  {
    match e
    case InputEvt(code, reported) => OnInputEvent(s, code, reported)
    case TrackChange(next) => Some(OnTrackChange(s, next))
    case Wake(meta) => if s.advertise && s.inputState.Some? then Some(Advertise(s, meta)) else Some(s)
    case Press(b) => Some(OnButton(s, b))
  }

  /** The events in order; None once one of them trips the death-event assertion. */
  function Run(s: Sys, evs: seq<Event>): Option<Sys>
    decreases |evs|
  {
    if evs == [] then Some(s)
    else match Run(s, evs[..|evs| - 1])
      case None => None
      case Some(t) => Apply(t, evs[|evs| - 1])
  }

  predicate IsStateEvent(e: Event)
  {
    e.InputEvt? && e.code == INPUT_EVENT_STATE
  }

  /** The state carried by the last state event, if any. */
  function LastState(evs: seq<Event>): Option<int>
    decreases |evs|
  {
    if evs == [] then None
    else if IsStateEvent(evs[|evs| - 1]) then Some(evs[|evs| - 1].reported)
    else LastState(evs[..|evs| - 1])
  }

  predicate NoWake(evs: seq<Event>)
  {
    forall i :: 0 <= i < |evs| ==> !evs[i].Wake?
  }

  /** No track change to a non-null input. */
  predicate NoNewTrack(evs: seq<Event>)
  {
    forall i :: 0 <= i < |evs| ==> !(evs[i].TrackChange? && evs[i].next.Some?)
  }

  /** The events after the last wake-up (all of them when there is none). */
  function SinceLastWake(evs: seq<Event>): seq<Event>
    decreases |evs|
  {
    if evs == [] then []
    else if evs[|evs| - 1].Wake? then []
    else SinceLastWake(evs[..|evs| - 1]) + [evs[|evs| - 1]]
  }

  /**
    Latest wins: `input_state` ends up holding the state of the last state
    event (or is untouched when there is none), the pending flag can only
    have been raised by a state event, and without wake-ups it is raised
    exactly when some state event happened. From a valid state, a raised
    flag was raised by a state event after the last wake-up (or was already
    raised and no wake-up came): every wake-up consumes it.
   */
  lemma {:induction false} LatestWins(s: Sys, evs: seq<Event>, t: Sys)
    requires Run(s, evs) == Some(t)
    ensures t.inputState == (if LastState(evs).Some? then LastState(evs) else s.inputState)
    ensures t.advertise ==> s.advertise || LastState(evs).Some?
    ensures NoWake(evs) ==> t.advertise == (s.advertise || LastState(evs).Some?)
    ensures Valid(s) ==> Valid(t)
    ensures Valid(s) && t.advertise ==>
              (NoWake(evs) && s.advertise) || LastState(SinceLastWake(evs)).Some?
    decreases |evs|
  {
    if evs != [] {
      var init := evs[..|evs| - 1];
      var e := evs[|evs| - 1];
      var t0 := Run(s, init).value;
      LatestWins(s, init, t0);
      if NoWake(evs) {
        forall i | 0 <= i < |init| ensures !init[i].Wake? {
          assert init[i] == evs[i];
        }
      }
      if !e.Wake? {
        var since := SinceLastWake(init);
        assert SinceLastWake(evs) == since + [e];
        assert (since + [e])[..|since|] == since;
        if NoWake(init) {
          forall i | 0 <= i < |evs| ensures !evs[i].Wake? {
            if i < |init| { assert evs[i] == init[i]; }
          }
        }
      }
    }
  }

  /**
    From the constructor's state, whenever `advertise` is set the slot
    `input_state` has been written, and it holds the last state reported.
   */
  lemma PendingImpliesWritten(evs: seq<Event>, t: Sys)
    requires Run(Initial, evs) == Some(t) && t.advertise
    ensures LastState(evs).Some? && t.inputState == LastState(evs)
    ensures Valid(t)
  {
    LatestWins(Initial, evs, t);
  }

  /**
    Several state events before one wake-up: the wake-up advertises, and the
    only status it publishes is that of the last state; anything after it in
    that pass is metadata.
   */
  lemma CoalescedWakePublishesLatest(s: Sys, evs: seq<Event>, t: Sys, meta: InputId -> Item)
    requires NoWake(evs) && LastState(evs).Some? && Run(s, evs) == Some(t)
    ensures t.advertise && t.inputState == LastState(evs)
    ensures Apply(t, Wake(meta)) == Some(Advertise(t, meta))
    ensures Advertise(t, meta).log[|t.log|] == SetStatus(StatusOf(LastState(evs).value))
    ensures forall i :: |t.log| < i < |Advertise(t, meta).log| ==> Advertise(t, meta).log[i].ShowMetadata?
  {
    LatestWins(s, evs, t);
  }

  /** Metadata publishes so far plus the one the current track may still get. */
  function Budget(s: Sys): nat
  {
    MetadataCount(s.log) + (if s.metadataAdvertised then 0 else 1)
  }

  lemma {:induction false} NoMetadataCountsZero(log: seq<Effect>)
    requires forall i :: 0 <= i < |log| ==> !log[i].ShowMetadata?
    ensures MetadataCount(log) == 0
    decreases |log|
  {
    if log != [] {
      NoMetadataCountsZero(log[..|log| - 1]);
    }
  }

  /** Every event other than a new track leaves the budget where it was or lowers it. */
  lemma ApplyKeepsBudget(s: Sys, e: Event, t: Sys)
    requires !(e.TrackChange? && e.next.Some?) && Apply(s, e) == Some(t)
    ensures Budget(t) <= Budget(s)
    ensures s.metadataAdvertised ==> t.metadataAdvertised
  {
    match e
    case InputEvt(code, reported) =>
      if code == INPUT_EVENT_DEAD {
        MetadataCountAppend(s.log, [Release(s.input.value)]);
        NoMetadataCountsZero([Release(s.input.value)]);
      }
    case TrackChange(next) =>
    case Wake(meta) =>
    case Press(b) =>
      MetadataCountAppend(s.log, ButtonEffects(b));
      NoMetadataCountsZero(ButtonEffects(b));
  }

  /**
    Metadata at most once per track: without a track change, a run adds at
    most one metadata publish, and none at all once the current track's
    metadata is out.
   */
  lemma {:induction false} MetadataAtMostOncePerTrack(s: Sys, evs: seq<Event>, t: Sys)
    requires NoNewTrack(evs) && Run(s, evs) == Some(t)
    ensures Budget(t) <= Budget(s)
    ensures MetadataCount(t.log) <= MetadataCount(s.log) + (if s.metadataAdvertised then 0 else 1)
    ensures s.metadataAdvertised ==> t.metadataAdvertised
    decreases |evs|
  {
    if evs != [] {
      var init := evs[..|evs| - 1];
      var t0 := Run(s, init).value;
      forall i | 0 <= i < |init| ensures !(init[i].TrackChange? && init[i].next.Some?) {
        assert init[i] == evs[i];
      }
      MetadataAtMostOncePerTrack(s, init, t0);
      ApplyKeepsBudget(t0, evs[|evs| - 1], t);
    }
  }

  /**
    Every metadata publish comes right after a status publish, and that
    status is never Changing (metadata waits for PLAYING_S or later).
   */
  predicate StatusBeforeMetadata(log: seq<Effect>)
  {
    forall i :: 0 <= i < |log| && log[i].ShowMetadata? ==>
      0 < i && log[i - 1].SetStatus? && log[i - 1].status != Changing
  }

  /** Appending effects that hold no metadata publish keeps the order. */
  lemma AppendKeepsOrder(log: seq<Effect>, extra: seq<Effect>)
    requires StatusBeforeMetadata(log)
    requires forall i :: 0 <= i < |extra| ==> !extra[i].ShowMetadata?
    ensures StatusBeforeMetadata(log + extra)
  {
  }

  /** Each event appends at most one metadata publish, right after its status. */
  lemma ApplyKeepsOrder(s: Sys, e: Event, t: Sys)
    requires StatusBeforeMetadata(s.log) && Apply(s, e) == Some(t)
    ensures StatusBeforeMetadata(t.log)
  {
    match e
    case InputEvt(code, reported) =>
      if code == INPUT_EVENT_DEAD {
        AppendKeepsOrder(s.log, [Release(s.input.value)]);
      }
    case TrackChange(next) =>
      if next.Some? {
        AppendKeepsOrder(s.log, [Hold(next.value), Subscribe(next.value)]);
      }
    case Wake(meta) =>
      if s.advertise && s.inputState.Some? {
        var n := |s.log|;
        forall i | 0 <= i < |t.log| && t.log[i].ShowMetadata?
          ensures 0 < i && t.log[i - 1].SetStatus? && t.log[i - 1].status != Changing
        {
          if i < n {
            assert t.log[i] == s.log[i] && (0 < i ==> t.log[i - 1] == s.log[i - 1]);
          } else {
            assert i == n + 1;
          }
        }
      }
    case Press(b) =>
      AppendKeepsOrder(s.log, ButtonEffects(b));
  }

  /** The order of status and metadata publishes holds of every run. */
  lemma {:induction false} RunKeepsOrder(s: Sys, evs: seq<Event>, t: Sys)
    requires StatusBeforeMetadata(s.log) && Run(s, evs) == Some(t)
    ensures StatusBeforeMetadata(t.log)
    decreases |evs|
  {
    if evs != [] {
      var t0 := Run(s, evs[..|evs| - 1]).value;
      RunKeepsOrder(s, evs[..|evs| - 1], t0);
      ApplyKeepsOrder(t0, evs[|evs| - 1], t);
    }
  }

  /** A run that passes through the given states, one per event. */
  lemma {:induction false} RunThrough(s: Sys, evs: seq<Event>, states: seq<Sys>)
    requires |states| == |evs| + 1 && states[0] == s
    requires forall k :: 0 <= k < |evs| ==> Apply(states[k], evs[k]) == Some(states[k + 1])
    ensures Run(s, evs) == Some(states[|evs|])
    decreases |evs|
  {
    if evs != [] {
      var n := |evs| - 1;
      forall k | 0 <= k < n ensures Apply(states[..n + 1][k], evs[..n][k]) == Some(states[..n + 1][k + 1]) {
        assert evs[..n][k] == evs[k];
      }
      RunThrough(s, evs[..n], states[..n + 1]);
    }
  }

  /** The player reports "Song A" by "Artist A" for every input. */
  function SongA(id: InputId): Item
  {
    Item(Some("Song A"), Some("Artist A"))
  }

  /**
    Track A becomes current and goes Opening, Playing, Paused, Playing, each
    state taken up by its own wake-up: one status per pass, ending at
    Playing, and the metadata once, right after the first Playing.
   */
  lemma EndToEndScenario(a: InputId)
    ensures Run(Initial, [TrackChange(Some(a)),
                          InputEvt(INPUT_EVENT_STATE, OPENING_S), Wake(SongA),
                          InputEvt(INPUT_EVENT_STATE, PLAYING_S), Wake(SongA),
                          InputEvt(INPUT_EVENT_STATE, PAUSE_S), Wake(SongA),
                          InputEvt(INPUT_EVENT_STATE, PLAYING_S), Wake(SongA)])
            == Some(Sys(Some(a), Some(PLAYING_S), false, true,
                        [Hold(a), Subscribe(a),
                         SetStatus(Changing), SetStatus(Playing),
                         ShowMetadata(TrackInfo("Song A", "Artist A")),
                         SetStatus(Paused), SetStatus(Playing)]))
  {
    var info := TrackInfo("Song A", "Artist A");
    var evs := [TrackChange(Some(a)),
                InputEvt(INPUT_EVENT_STATE, OPENING_S), Wake(SongA),
                InputEvt(INPUT_EVENT_STATE, PLAYING_S), Wake(SongA),
                InputEvt(INPUT_EVENT_STATE, PAUSE_S), Wake(SongA),
                InputEvt(INPUT_EVENT_STATE, PLAYING_S), Wake(SongA)];
    var s1 := Sys(Some(a), None, false, false, [Hold(a), Subscribe(a)]);
    var s2 := s1.(advertise := true, inputState := Some(OPENING_S));
    var s3 := s2.(advertise := false, log := s1.log + [SetStatus(Changing)]);
    var s4 := s3.(advertise := true, inputState := Some(PLAYING_S));
    var s5 := s4.(advertise := false, metadataAdvertised := true,
                  log := s3.log + [SetStatus(Playing)] + [ShowMetadata(info)]);
    var s6 := s5.(advertise := true, inputState := Some(PAUSE_S));
    var s7 := s6.(advertise := false, log := s5.log + [SetStatus(Paused)]);
    var s8 := s7.(advertise := true, inputState := Some(PLAYING_S));
    var s9 := s8.(advertise := false, log := s7.log + [SetStatus(Playing)]);
    var states := [Initial, s1, s2, s3, s4, s5, s6, s7, s8, s9];
    assert Initial.log + [Hold(a), Subscribe(a)] == s1.log;
    assert Apply(Initial, evs[0]) == Some(s1);
    assert Apply(s1, evs[1]) == Some(s2);
    assert Apply(s2, evs[2]) == Some(s3);
    assert Apply(s3, evs[3]) == Some(s4);
    assert Apply(s4, evs[4]) == Some(s5);
    assert Apply(s5, evs[5]) == Some(s6);
    assert Apply(s6, evs[6]) == Some(s7);
    assert Apply(s7, evs[7]) == Some(s8);
    assert Apply(s8, evs[8]) == Some(s9);
    RunThrough(Initial, evs, states);
    assert s9.log == [Hold(a), Subscribe(a), SetStatus(Changing), SetStatus(Playing),
                      ShowMetadata(info), SetStatus(Paused), SetStatus(Playing)];
  }

  /** Opening and Playing before one wake-up: Opening is never published. */
  lemma CoalescingScenario(a: InputId)
    ensures Run(Initial, [TrackChange(Some(a)),
                          InputEvt(INPUT_EVENT_STATE, OPENING_S),
                          InputEvt(INPUT_EVENT_STATE, PLAYING_S), Wake(SongA)])
            == Some(Sys(Some(a), Some(PLAYING_S), false, true,
                        [Hold(a), Subscribe(a), SetStatus(Playing),
                         ShowMetadata(TrackInfo("Song A", "Artist A"))]))
  {
    var evs := [TrackChange(Some(a)), InputEvt(INPUT_EVENT_STATE, OPENING_S),
                InputEvt(INPUT_EVENT_STATE, PLAYING_S), Wake(SongA)];
    var s1 := Sys(Some(a), None, false, false, [Hold(a), Subscribe(a)]);
    var s2 := s1.(advertise := true, inputState := Some(OPENING_S));
    var s3 := s1.(advertise := true, inputState := Some(PLAYING_S));
    var s4 := s3.(advertise := false, metadataAdvertised := true,
                  log := s1.log + [SetStatus(Playing)] + [ShowMetadata(TrackInfo("Song A", "Artist A"))]);
    assert Initial.log + [Hold(a), Subscribe(a)] == s1.log;
    assert Apply(Initial, evs[0]) == Some(s1);
    assert Apply(s1, evs[1]) == Some(s2);
    assert Apply(s2, evs[2]) == Some(s3);
    assert Apply(s3, evs[3]) == Some(s4);
    RunThrough(Initial, evs, [Initial, s1, s2, s3, s4]);
    assert s4.log == [Hold(a), Subscribe(a), SetStatus(Playing), ShowMetadata(TrackInfo("Song A", "Artist A"))];
  }

  /** The player reports track 0 as "Song A" by "Artist A" and any other as "Song B" by "Artist B". */
  function TwoSongs(id: InputId): Item
  {
    if id == 0 then Item(Some("Song A"), Some("Artist A")) else Item(Some("Song B"), Some("Artist B"))
  }

  /**
    The per-track reset: track 0 plays and its metadata goes out; a change
    to track 1 clears the flag, so the next Playing publishes track 1's
    metadata too.
   */
  lemma NextTrackScenario()
    ensures Run(Initial, [TrackChange(Some(0)), InputEvt(INPUT_EVENT_STATE, PLAYING_S), Wake(TwoSongs),
                          TrackChange(Some(1)), InputEvt(INPUT_EVENT_STATE, PLAYING_S), Wake(TwoSongs)])
            == Some(Sys(Some(1), Some(PLAYING_S), false, true,
                        [Hold(0), Subscribe(0), SetStatus(Playing),
                         ShowMetadata(TrackInfo("Song A", "Artist A")),
                         Hold(1), Subscribe(1), SetStatus(Playing),
                         ShowMetadata(TrackInfo("Song B", "Artist B"))]))
  {
    var infoA := TrackInfo("Song A", "Artist A");
    var infoB := TrackInfo("Song B", "Artist B");
    var evs := [TrackChange(Some(0)), InputEvt(INPUT_EVENT_STATE, PLAYING_S), Wake(TwoSongs),
                TrackChange(Some(1)), InputEvt(INPUT_EVENT_STATE, PLAYING_S), Wake(TwoSongs)];
    var s1 := Sys(Some(0), None, false, false, [Hold(0), Subscribe(0)]);
    var s2 := s1.(advertise := true, inputState := Some(PLAYING_S));
    var s3 := s2.(advertise := false, metadataAdvertised := true,
                  log := s1.log + [SetStatus(Playing)] + [ShowMetadata(infoA)]);
    var s4 := s3.(input := Some(1), metadataAdvertised := false, log := s3.log + [Hold(1), Subscribe(1)]);
    var s5 := s4.(advertise := true, inputState := Some(PLAYING_S));
    var s6 := s5.(advertise := false, metadataAdvertised := true,
                  log := s4.log + [SetStatus(Playing)] + [ShowMetadata(infoB)]);
    assert Initial.log + [Hold(0), Subscribe(0)] == s1.log;
    assert Apply(Initial, evs[0]) == Some(s1);
    assert Apply(s1, evs[1]) == Some(s2);
    assert Apply(s2, evs[2]) == Some(s3);
    assert Apply(s3, evs[3]) == Some(s4);
    assert Apply(s4, evs[4]) == Some(s5);
    assert Apply(s5, evs[5]) == Some(s6);
    RunThrough(Initial, evs, [Initial, s1, s2, s3, s4, s5, s6]);
    assert s6.log == [Hold(0), Subscribe(0), SetStatus(Playing), ShowMetadata(infoA),
                      Hold(1), Subscribe(1), SetStatus(Playing), ShowMetadata(infoB)];
  }
}
